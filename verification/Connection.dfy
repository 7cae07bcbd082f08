/** One connection of `BtpsServer`: any number of lines, a timeout and socket errors interleave
    on one socket, switching at every `await` (src/server/btpsServer.ts:120-376, 748-906). */
module Connection {
  import opened OrderedMap
  import opened Symbolic
  import opened Verification

  // ---------- the data ----------

  /** The middleware stages, in the order a request meets them. */
  datatype Hook =
    | BeforeParsing | AfterParsing | BeforeSignature | AfterSignature | BeforeTrust | AfterTrust
    | BeforeArtifact | AfterArtifact | BeforeError | AfterError

  /** How many middleware handlers each stage has, and whether a `handlerFn` is set. */
  datatype Config = Config(handlers: map<Hook, nat>, forwards: bool)

  const SAMPLE: Fields := [
    Entry("agentId", Str(EMPTY)), Entry("to", Str(EMPTY)), Entry("action", Str(EMPTY)),
    Entry("signature", SignatureJson(Signature(EMPTY, EMPTY)))]

  /** A schema-checked artifact with its routing, `ProcessedArtifact`. */
  type Artifact = data: Processed | ValidProcessed(data) witness (SampleIsValid(); Agent(SAMPLE, false))

  lemma SampleIsValid()
    ensures ValidAgent(SAMPLE)
  {
    var agentId, to, action, signature := "agentId", "to", "action", "signature";
    assert |agentId| == 7 && |to| == 2 && |action| == 6 && |signature| == 9;
    assert Find(SAMPLE, agentId) == Some(Str(EMPTY));
    assert Find(SAMPLE, to) == Find(SAMPLE[1..], to) == Some(Str(EMPTY));
    assert Find(SAMPLE, action) == Find(SAMPLE[1..], action) == Find(SAMPLE[1..][1..], action) == Some(Str(EMPTY));
    var tail := SAMPLE[1..][1..][1..];
    assert tail[0].key == signature;
    assert Find(SAMPLE, signature) == Find(SAMPLE[1..], signature) == Find(SAMPLE[1..][1..], signature) == Find(tail, signature);
    ReadSignatureJson(Signature(EMPTY, EMPTY));
  }

  /** Who worded a response: some middleware or listener, or the pipeline of one task. */
  datatype Response =
    | Custom
    | Malformed(task: nat) | BadSignature(task: nat) | NotTrusted(task: nat) | Success(task: nat) | Failed(task: nat)

  datatype Socket = Socket(ended: bool, destroyed: bool, written: seq<Response>) {
    predicate Closed() {
      destroyed || ended
    }
  }

  /** How one `sendBtpsResponse` goes: written and ended, refused by the response schema, or an
      exception before or after the bytes were handed over. */
  datatype SendOutcome = Sent | SchemaRefused | WriteThrew | EndThrew

  function SendOn(socket: Socket, response: Response, outcome: SendOutcome): (r: Socket)
    ensures r.Closed()
    ensures socket.Closed() ==> r == socket
  {
    if socket.Closed() then socket
    else match outcome
      case Sent => Socket(true, false, socket.written + [response])
      case SchemaRefused => socket.(destroyed := true)
      case WriteThrew => socket.(destroyed := true)
      case EndThrew => Socket(socket.ended, true, socket.written + [response])
  }

  /** The fields of the request context that later stages could look at; handlers may overwrite them. */
  datatype Context = Context(data: Option<Artifact>, isValid: bool, isTrusted: bool)

  /** Where a task is suspended. `Returned` is the await on a finished `executeMiddleware`. */
  datatype Pc =
    | Running(hook: Hook, k: nat)
    | Returned(hook: Hook)
    | Verifying | Trusting | Emitted | Forwarding
    | Finished
    | Crashed

  /** One activation of the data listener, or of `handleOnSocketError`; `data`, `valid` and
      `trusted` are the local variables, `parsed` is None for a line that does not parse. */
  datatype Task = Task(pc: Pc, parsed: Option<Artifact>, ctx: Context, data: Option<Artifact>, valid: bool, trusted: bool)

  datatype Receiver = Listeners | HandlerFn

  datatype Note =
    | SigChecked(task: nat, data: Artifact, world: World, valid: bool)
    | TrustChecked(task: nat, data: Artifact, world: World, trusted: bool)
    | Delivered(task: nat, data: Artifact, to: Receiver)
    | HookThrew(task: nat)

  datatype State = State(socket: Socket, tasks: seq<Task>, log: seq<Note>)

  /** What the awaited thing brings: an exception or not, the world a judgement reads, and how a
      response of this step is received by the socket. */
  datatype Choice = Choice(throws: bool, world: World, outcome: SendOutcome)

  datatype Event =
    | Line(parsed: Option<Artifact>)
    | Fault
    | ListenerThrew
    | Send(outcome: SendOutcome)
    | End
    | Destroy
    | Overwrite(task: nat, ctx: Context)
    | Resume(task: nat, choice: Choice)

  const OPEN := State(Socket(false, false, []), [], [])
  const NOTHING := Context(None, false, false)

  // ---------- the steps ----------

  function Count(c: Config, hook: Hook): nat {
    if hook in c.handlers then c.handlers[hook] else 0
  }

  predicate OnError(hook: Hook) {
    hook == BeforeError || hook == AfterError
  }

  /** `executeMiddleware` found the socket closed: the request stops, the error path goes on. */
  function Stopped(hook: Hook): Pc {
    if OnError(hook) then Returned(hook) else Finished
  }

  function EnterHook(c: Config, socket: Socket, hook: Hook): Pc {
    if Count(c, hook) == 0 then Returned(hook)
    else if socket.Closed() then Stopped(hook)
    else Running(hook, 0)
  }

  datatype Effect = Effect(task: Task, socket: Socket, notes: seq<Note>)

  /** The exception reaches the `catch` and with it `handleOnSocketError`. */
  function Raise(c: Config, socket: Socket, task: Task): Effect {
    Effect(task.(pc := EnterHook(c, socket, BeforeError)), socket, [])
  }

  function Enter(c: Config, socket: Socket, task: Task, hook: Hook): Effect {
    Effect(task.(pc := EnterHook(c, socket, hook)), socket, [])
  }

  function Answer(socket: Socket, task: Task, response: Response, outcome: SendOutcome): Effect {
    Effect(task.(pc := Finished), SendOn(socket, response, outcome), [])
  }

  function RunHook(c: Config, socket: Socket, i: nat, task: Task, choice: Choice): Effect
    requires task.pc.Running?
  {
    var hook, k := task.pc.hook, task.pc.k;
    if choice.throws then
      if OnError(hook) then Effect(task.(pc := Crashed), socket, [HookThrew(i)]) else Raise(c, socket, task)
    else if socket.Closed() then Effect(task.(pc := Stopped(hook)), socket, [])
    else if k + 1 < Count(c, hook) then Effect(task.(pc := Running(hook, k + 1)), socket, [])
    else Effect(task.(pc := Returned(hook)), socket, [])
  }

  /** `_forwardArtifact`, as far as its await. */
  function Forward(c: Config, socket: Socket, i: nat, task: Task): Effect {
    Effect(task.(pc := Forwarding), socket, if c.forwards && task.data.Some? then [Delivered(i, task.data.value, HandlerFn)] else [])
  }

  /** What follows the emission. A listener of an awaited emission cannot throw into the pipeline. */
  function AfterEmission(c: Config, socket: Socket, i: nat, task: Task, choice: Choice): Effect
    requires task.data.Some?
  {
    var data := task.data.value;
    if choice.throws && !(data.Agent? && data.respondNow) then Raise(c, socket, task)
    else if data.Agent? then Effect(task.(pc := Emitted), socket, [])
    else Forward(c, socket, i, task)
  }

  /** `processMessage` up to its first await: the listeners get the artifact. */
  function Emit(c: Config, socket: Socket, i: nat, task: Task, choice: Choice): Effect {
    if task.data.None? then Raise(c, socket, task)
    else
      var after := AfterEmission(c, socket, i, task, choice);
      after.(notes := [Delivered(i, task.data.value, Listeners)] + after.notes)
  }

  function Judge(c: Config, socket: Socket, i: nat, task: Task, choice: Choice): Effect {
    if task.data.None? then Raise(c, socket, task)
    else
      var data, w := task.data.value, choice.world;
      if choice.throws || VerifyArtifact(w, data).None? then Raise(c, socket, task)
      else
        var valid := VerifyArtifact(w, data).value.Accepted?;
        Enter(c, socket, task.(valid := valid, ctx := task.ctx.(isValid := valid)), AfterSignature)
          .(notes := [SigChecked(i, data, w, valid)])
  }

  function Admit(c: Config, socket: Socket, i: nat, task: Task, choice: Choice): Effect {
    if task.data.None? then Raise(c, socket, task)
    else
      var data, w := task.data.value, choice.world;
      if choice.throws then Raise(c, socket, task)
      else
        var trusted := VerifyTrust(w, data);
        Enter(c, socket, task.(trusted := trusted, ctx := task.ctx.(isTrusted := trusted)), AfterTrust)
          .(notes := [TrustChecked(i, data, w, trusted)])
  }

  /** What follows a finished `executeMiddleware`. Reading `data` off an undefined context value
      is left to the judgement, which throws on it. */
  function Continue(c: Config, socket: Socket, i: nat, task: Task, choice: Choice): Effect
    requires task.pc.Returned?
  {
    match task.pc.hook
    case BeforeParsing => Enter(c, socket, task, AfterParsing)
    case AfterParsing =>
      if task.parsed.None? then Answer(socket, task, Malformed(i), choice.outcome)
      else Enter(c, socket, task.(ctx := task.ctx.(data := task.parsed)), BeforeSignature)
    case BeforeSignature =>
      Effect(task.(pc := Verifying, data := task.ctx.data), socket, [])
    case AfterSignature =>
      if !task.valid then Answer(socket, task, BadSignature(i), choice.outcome)
      else Enter(c, socket, task, BeforeTrust)
    case BeforeTrust => Effect(task.(pc := Trusting), socket, [])
    case AfterTrust =>
      if !task.trusted then Answer(socket, task, NotTrusted(i), choice.outcome)
      else Enter(c, socket, task, BeforeArtifact)
    case BeforeArtifact => Emit(c, socket, i, task, choice)
    case AfterArtifact => Answer(socket, task, Success(i), choice.outcome)
    case BeforeError =>
      var torn := SendOn(socket, Failed(i), choice.outcome).(destroyed := true);
      Enter(c, torn, task, AfterError)
    case AfterError => Effect(task.(pc := Finished), socket, [])
  }

  predicate Done(task: Task) {
    task.pc.Finished? || task.pc.Crashed?
  }

  function ResumeTask(c: Config, socket: Socket, i: nat, task: Task, choice: Choice): Effect {
    match task.pc
    case Running(_, _) => RunHook(c, socket, i, task, choice)
    case Returned(_) => Continue(c, socket, i, task, choice)
    case Verifying => Judge(c, socket, i, task, choice)
    case Trusting => Admit(c, socket, i, task, choice)
    case Emitted => if socket.Closed() then Effect(task.(pc := Finished), socket, []) else Forward(c, socket, i, task)
    case Forwarding => if choice.throws && c.forwards then Raise(c, socket, task) else Enter(c, socket, task, AfterArtifact)
    case Finished => Effect(task, socket, [])
    case Crashed => Effect(task, socket, [])
  }

  function NewTask(c: Config, socket: Socket, hook: Hook, parsed: Option<Artifact>): Task {
    Task(EnterHook(c, socket, hook), parsed, NOTHING, None, false, false)
  }

  /** The state of one task after an effect, in place. */
  function Apply(s: State, i: nat, e: Effect): State
    requires i < |s.tasks|
  {
    State(e.socket, s.tasks[i := e.task], s.log + e.notes)
  }

  function Step(c: Config, s: State, event: Event): State {
    match event
    case Line(parsed) => s.(tasks := s.tasks + [NewTask(c, s.socket, BeforeParsing, parsed)])
    case Fault => s.(tasks := s.tasks + [NewTask(c, s.socket, BeforeError, None)])
    case ListenerThrew => s.(tasks := s.tasks + [NewTask(c, s.socket, BeforeError, None)])
    case Send(outcome) => s.(socket := SendOn(s.socket, Custom, outcome))
    case End => s.(socket := s.socket.(ended := true))
    case Destroy => s.(socket := s.socket.(destroyed := true))
    case Overwrite(i, ctx) =>
      if i < |s.tasks| then s.(tasks := s.tasks[i := s.tasks[i].(ctx := ctx)]) else s
    case Resume(i, choice) =>
      if i < |s.tasks| then
        Apply(s, i, ResumeTask(c, s.socket, i, s.tasks[i], choice))
      else s
  }

  function Run(c: Config, s: State, events: seq<Event>): State
    decreases |events|
  {
    if events == [] then s else Run(c, Step(c, s, events[0]), events[1..])
  }

  // ---------- what the log says ----------

  /** The note records what is so of the artifact: signed by the right party, entitled by the records. */
  predicate Honest(note: Note) {
    match note
    case SigChecked(_, data, w, valid) => valid == Authentic(w, data)
    case TrustChecked(_, data, w, trusted) => trusted == Entitled(w, data)
    case _ => true
  }

  predicate Accepts(note: Note, i: nat, data: Artifact) {
    note.SigChecked? && note.task == i && note.data == data && note.valid
  }

  predicate Admits(note: Note, i: nat, data: Artifact) {
    note.TrustChecked? && note.task == i && note.data == data && note.trusted
  }

  predicate Refuses(note: Note, i: nat) {
    note.SigChecked? && note.task == i && !note.valid
  }

  predicate Distrusts(note: Note, i: nat) {
    note.TrustChecked? && note.task == i && !note.trusted
  }

  predicate IsAccepted(log: seq<Note>, i: nat, data: Option<Artifact>) {
    data.Some? && exists q | 0 <= q < |log| :: Accepts(log[q], i, data.value)
  }

  /** Judged valid, and after that trusted. */
  predicate IsCleared(log: seq<Note>, i: nat, data: Artifact) {
    exists q, r | 0 <= q < r < |log| :: Accepts(log[q], i, data) && Admits(log[r], i, data)
  }

  predicate Cleared(log: seq<Note>, i: nat, data: Option<Artifact>) {
    data.Some? && IsCleared(log, i, data.value)
  }

  predicate IsRefused(log: seq<Note>, i: nat) {
    exists q | 0 <= q < |log| :: Refuses(log[q], i)
  }

  predicate IsDistrusted(log: seq<Note>, i: nat) {
    exists q | 0 <= q < |log| :: Distrusts(log[q], i)
  }

  predicate IsDelivered(log: seq<Note>, i: nat) {
    exists q | 0 <= q < |log| :: log[q].Delivered? && log[q].task == i
  }

  lemma LogGrows(log: seq<Note>, more: seq<Note>, i: nat, data: Option<Artifact>)
    ensures IsAccepted(log, i, data) ==> IsAccepted(log + more, i, data)
    ensures Cleared(log, i, data) ==> Cleared(log + more, i, data)
    ensures IsRefused(log, i) ==> IsRefused(log + more, i)
    ensures IsDistrusted(log, i) ==> IsDistrusted(log + more, i)
    ensures IsDelivered(log, i) ==> IsDelivered(log + more, i)
    ensures HookThrew(i) in log ==> HookThrew(i) in log + more
  {
    var grown := log + more;
    assert forall q | 0 <= q < |log| :: grown[q] == log[q];
    if IsAccepted(log, i, data) {
      var q :| 0 <= q < |log| && Accepts(log[q], i, data.value);
      assert Accepts(grown[q], i, data.value);
    }
    if Cleared(log, i, data) {
      var q, r :| 0 <= q < r < |log| && Accepts(log[q], i, data.value) && Admits(log[r], i, data.value);
      assert Accepts(grown[q], i, data.value) && Admits(grown[r], i, data.value);
    }
    if IsRefused(log, i) {
      var q :| 0 <= q < |log| && Refuses(log[q], i);
      assert Refuses(grown[q], i);
    }
    if IsDistrusted(log, i) {
      var q :| 0 <= q < |log| && Distrusts(log[q], i);
      assert Distrusts(grown[q], i);
    }
    if IsDelivered(log, i) {
      var q :| 0 <= q < |log| && log[q].Delivered? && log[q].task == i;
      assert grown[q].Delivered? && grown[q].task == i;
    }
  }

  // ---------- the invariant ----------

  function HookLevel(hook: Hook): nat {
    match hook
    case BeforeParsing => 0
    case AfterParsing => 0
    case BeforeSignature => 0
    case AfterSignature => 1
    case BeforeTrust => 2
    case AfterTrust => 3
    case BeforeArtifact => 4
    case AfterArtifact => 5
    case BeforeError => 0
    case AfterError => 6
  }

  /** How far a task has come, as far as it matters what it may do next. */
  function Level(pc: Pc): nat {
    match pc
    case Running(hook, _) => HookLevel(hook)
    case Returned(hook) => HookLevel(hook)
    case Verifying => 0
    case Trusting => 2
    case Emitted => 5
    case Forwarding => 5
    case Finished => 7
    case Crashed => 8
  }

  predicate TaskOk(log: seq<Note>, closed: bool, i: nat, task: Task) {
    match Level(task.pc)
    case 0 => true
    case 1 => if task.valid then IsAccepted(log, i, task.data) else IsRefused(log, i)
    case 2 => IsAccepted(log, i, task.data)
    case 3 => if task.trusted then Cleared(log, i, task.data) else IsDistrusted(log, i)
    case 4 => Cleared(log, i, task.data)
    case 5 => Cleared(log, i, task.data) && IsDelivered(log, i)
    case 6 => closed && task.pc.Returned?
    case 7 => closed
    case _ => HookThrew(i) in log
  }

  /** What the log has to say for a response worded by the pipeline. */
  predicate Truthful(log: seq<Note>, response: Response) {
    match response
    case BadSignature(i) => IsRefused(log, i)
    case NotTrusted(i) => IsDistrusted(log, i)
    case Success(i) => IsDelivered(log, i)
    case _ => true
  }

  predicate SocketOk(log: seq<Note>, socket: Socket) {
    && |socket.written| <= 1
    && (socket.written != [] ==> socket.Closed() && Truthful(log, socket.written[0]))
  }

  predicate Gated(log: seq<Note>) {
    forall p | 0 <= p < |log| && log[p].Delivered? :: IsCleared(log[..p], log[p].task, log[p].data)
  }

  predicate StateOk(s: State) {
    && SocketOk(s.log, s.socket)
    && Gated(s.log)
    && forall i | 0 <= i < |s.tasks| :: TaskOk(s.log, s.socket.Closed(), i, s.tasks[i])
  }

  // ---------- one step keeps it ----------

  /** What one resumption has to bring about for the invariant to survive it. */
  predicate EffectOk(log: seq<Note>, socket: Socket, i: nat, e: Effect) {
    && TaskOk(log + e.notes, e.socket.Closed(), i, e.task)
    && SocketOk(log + e.notes, e.socket)
    && (socket.Closed() ==> e.socket.Closed())
    && Gated(log + e.notes)
  }

  lemma EnterOk(c: Config, log: seq<Note>, socket: Socket, i: nat, task: Task, hook: Hook)
    requires SocketOk(log, socket) && Gated(log)
    requires hook.AfterError? ==> socket.Closed()
    requires TaskOk(log, socket.Closed(), i, task.(pc := Returned(hook)))
    ensures EffectOk(log, socket, i, Enter(c, socket, task, hook))
  {
    assert log + [] == log;
  }

  lemma SendKeeps(log: seq<Note>, socket: Socket, response: Response, outcome: SendOutcome)
    requires SocketOk(log, socket) && Truthful(log, response)
    ensures SocketOk(log, SendOn(socket, response, outcome))
  {
  }

  lemma RunHookOk(c: Config, log: seq<Note>, socket: Socket, i: nat, task: Task, choice: Choice)
    requires SocketOk(log, socket) && Gated(log) && TaskOk(log, socket.Closed(), i, task) && task.pc.Running?
    ensures EffectOk(log, socket, i, RunHook(c, socket, i, task, choice))
  {
    assert log + [] == log;
    var e := RunHook(c, socket, i, task, choice);
    if choice.throws {
      if OnError(task.pc.hook) {
        assert HookThrew(i) in log + e.notes by { assert (log + e.notes)[|log|] == HookThrew(i); }
        NoteKeeps(log, socket, HookThrew(i), i, task);
      } else {
        EnterOk(c, log, socket, i, task, BeforeError);
      }
    }
  }

  /** A note keeps the log gated unless it is a delivery of something not cleared. */
  lemma NoteKeeps(log: seq<Note>, socket: Socket, note: Note, i: nat, task: Task)
    requires SocketOk(log, socket) && Gated(log)
    requires note.Delivered? ==> IsCleared(log, note.task, note.data)
    ensures SocketOk(log + [note], socket) && Gated(log + [note])
    ensures Cleared(log, i, task.data) ==> Cleared(log + [note], i, task.data)
    ensures IsDelivered(log, i) || (note.Delivered? && note.task == i) ==> IsDelivered(log + [note], i)
  {
    var grown := log + [note];
    if socket.written != [] {
      match socket.written[0]
      case BadSignature(j) => LogGrows(log, [note], j, None);
      case NotTrusted(j) => LogGrows(log, [note], j, None);
      case Success(j) => LogGrows(log, [note], j, None);
      case _ =>
    }
    forall p | 0 <= p < |grown| && grown[p].Delivered?
      ensures IsCleared(grown[..p], grown[p].task, grown[p].data)
    {
      if p < |log| {
        assert grown[..p] == log[..p] && grown[p] == log[p];
      } else {
        assert grown[..p] == log;
      }
    }
    LogGrows(log, [note], i, task.data);
    assert grown[|log|] == note;
  }

  /** A second part of an effect is judged after the first note. */
  lemma NoteThen(log: seq<Note>, socket: Socket, i: nat, note: Note, e: Effect)
    requires EffectOk(log + [note], socket, i, e)
    ensures EffectOk(log, socket, i, e.(notes := [note] + e.notes))
  {
    assert log + [note] + e.notes == log + ([note] + e.notes);
  }

  lemma QuietOk(log: seq<Note>, socket: Socket, i: nat, task: Task)
    requires SocketOk(log, socket) && Gated(log) && TaskOk(log, socket.Closed(), i, task)
    ensures EffectOk(log, socket, i, Effect(task, socket, []))
  {
    assert log + [] == log;
  }

  lemma ForwardOk(c: Config, log: seq<Note>, socket: Socket, i: nat, task: Task)
    requires SocketOk(log, socket) && Gated(log) && Cleared(log, i, task.data) && IsDelivered(log, i)
    ensures EffectOk(log, socket, i, Forward(c, socket, i, task))
  {
    var forwarding := task.(pc := Forwarding);
    if c.forwards {
      var note := Delivered(i, task.data.value, HandlerFn);
      NoteKeeps(log, socket, note, i, task);
      QuietOk(log + [note], socket, i, forwarding);
      NoteThen(log, socket, i, note, Effect(forwarding, socket, []));
      assert [note] + [] == [note];
    } else {
      QuietOk(log, socket, i, forwarding);
    }
  }

  lemma AfterEmissionOk(c: Config, log: seq<Note>, socket: Socket, i: nat, task: Task, choice: Choice)
    requires SocketOk(log, socket) && Gated(log) && Cleared(log, i, task.data) && IsDelivered(log, i)
    ensures EffectOk(log, socket, i, AfterEmission(c, socket, i, task, choice))
  {
    assert log + [] == log;
    EnterOk(c, log, socket, i, task, BeforeError);
    ForwardOk(c, log, socket, i, task);
  }

  lemma EmitOk(c: Config, log: seq<Note>, socket: Socket, i: nat, task: Task, choice: Choice)
    requires SocketOk(log, socket) && Gated(log) && Cleared(log, i, task.data)
    ensures EffectOk(log, socket, i, Emit(c, socket, i, task, choice))
  {
    var note := Delivered(i, task.data.value, Listeners);
    NoteKeeps(log, socket, note, i, task);
    AfterEmissionOk(c, log + [note], socket, i, task, choice);
    NoteThen(log, socket, i, note, AfterEmission(c, socket, i, task, choice));
  }

  lemma AcceptedNow(log: seq<Note>, note: Note, i: nat, data: Artifact)
    requires note.SigChecked? && note.task == i && note.data == data
    ensures if note.valid then IsAccepted(log + [note], i, Some(data)) else IsRefused(log + [note], i)
  {
    var grown := log + [note];
    assert grown[|log|] == note;
    assert if note.valid then Accepts(grown[|log|], i, data) else Refuses(grown[|log|], i);
  }

  lemma AdmittedNow(log: seq<Note>, note: Note, i: nat, data: Artifact)
    requires note.TrustChecked? && note.task == i && note.data == data && IsAccepted(log, i, Some(data))
    ensures if note.trusted then IsCleared(log + [note], i, data) else IsDistrusted(log + [note], i)
  {
    var grown := log + [note];
    var q :| 0 <= q < |log| && Accepts(log[q], i, data);
    assert grown[q] == log[q] && grown[|log|] == note;
    assert Accepts(grown[q], i, data);
    assert if note.trusted then Admits(grown[|log|], i, data) else Distrusts(grown[|log|], i);
  }

  lemma EnterTaskOk(c: Config, log: seq<Note>, socket: Socket, i: nat, task: Task, hook: Hook)
    requires hook.AfterError? ==> socket.Closed()
    requires TaskOk(log, socket.Closed(), i, task.(pc := Returned(hook)))
    ensures TaskOk(log, socket.Closed(), i, Enter(c, socket, task, hook).task)
  {
  }

  lemma JudgeOk(c: Config, log: seq<Note>, socket: Socket, i: nat, task: Task, choice: Choice)
    requires SocketOk(log, socket) && Gated(log)
    ensures EffectOk(log, socket, i, Judge(c, socket, i, task, choice))
  {
    if task.data.None? || choice.throws || VerifyArtifact(choice.world, task.data.value).None? {
      EnterOk(c, log, socket, i, task, BeforeError);
    } else {
      var valid := VerifyArtifact(choice.world, task.data.value).value.Accepted?;
      var note := SigChecked(i, task.data.value, choice.world, valid);
      var judged := task.(valid := valid, ctx := task.ctx.(isValid := valid));
      NoteKeeps(log, socket, note, i, task);
      AcceptedNow(log, note, i, task.data.value);
      EnterTaskOk(c, log + [note], socket, i, judged, AfterSignature);
    }
  }

  lemma AdmitOk(c: Config, log: seq<Note>, socket: Socket, i: nat, task: Task, choice: Choice)
    requires SocketOk(log, socket) && Gated(log) && IsAccepted(log, i, task.data)
    ensures EffectOk(log, socket, i, Admit(c, socket, i, task, choice))
  {
    if choice.throws {
      EnterOk(c, log, socket, i, task, BeforeError);
    } else {
      var trusted := VerifyTrust(choice.world, task.data.value);
      var note := TrustChecked(i, task.data.value, choice.world, trusted);
      var judged := task.(trusted := trusted, ctx := task.ctx.(isTrusted := trusted));
      NoteKeeps(log, socket, note, i, task);
      AdmittedNow(log, note, i, task.data.value);
      EnterTaskOk(c, log + [note], socket, i, judged, AfterTrust);
    }
  }

  lemma AnswerOk(log: seq<Note>, socket: Socket, i: nat, task: Task, response: Response, outcome: SendOutcome)
    requires SocketOk(log, socket) && Gated(log) && Truthful(log, response)
    ensures EffectOk(log, socket, i, Answer(socket, task, response, outcome))
  {
    assert log + [] == log;
    SendKeeps(log, socket, response, outcome);
  }

  lemma TornOk(c: Config, log: seq<Note>, socket: Socket, i: nat, task: Task, outcome: SendOutcome)
    requires SocketOk(log, socket) && Gated(log)
    ensures var torn := SendOn(socket, Failed(i), outcome).(destroyed := true);
            EffectOk(log, socket, i, Enter(c, torn, task, AfterError))
  {
    SendKeeps(log, socket, Failed(i), outcome);
    var torn := SendOn(socket, Failed(i), outcome).(destroyed := true);
    assert SocketOk(log, torn);
    EnterOk(c, log, torn, i, task, AfterError);
  }

  lemma ContinueOk(c: Config, log: seq<Note>, socket: Socket, i: nat, task: Task, choice: Choice)
    requires SocketOk(log, socket) && Gated(log) && TaskOk(log, socket.Closed(), i, task) && task.pc.Returned?
    ensures EffectOk(log, socket, i, Continue(c, socket, i, task, choice))
  {
    match task.pc.hook
    case BeforeParsing => EnterOk(c, log, socket, i, task, AfterParsing);
    case AfterParsing =>
      AnswerOk(log, socket, i, task, Malformed(i), choice.outcome);
      EnterOk(c, log, socket, i, task.(ctx := task.ctx.(data := task.parsed)), BeforeSignature);
    case AfterSignature =>
      if !task.valid {
        AnswerOk(log, socket, i, task, BadSignature(i), choice.outcome);
      } else {
        EnterOk(c, log, socket, i, task, BeforeTrust);
      }
    case AfterTrust =>
      if !task.trusted {
        AnswerOk(log, socket, i, task, NotTrusted(i), choice.outcome);
      } else {
        EnterOk(c, log, socket, i, task, BeforeArtifact);
      }
    case BeforeArtifact => EmitOk(c, log, socket, i, task, choice);
    case AfterArtifact => AnswerOk(log, socket, i, task, Success(i), choice.outcome);
    case BeforeError => TornOk(c, log, socket, i, task, choice.outcome);
    case _ => assert log + [] == log;
  }

  lemma ResumeOk(c: Config, log: seq<Note>, socket: Socket, i: nat, task: Task, choice: Choice)
    requires SocketOk(log, socket) && Gated(log) && TaskOk(log, socket.Closed(), i, task)
    ensures EffectOk(log, socket, i, ResumeTask(c, socket, i, task, choice))
  {
    assert log + [] == log;
    match task.pc
    case Running(_, _) => RunHookOk(c, log, socket, i, task, choice);
    case Returned(_) => ContinueOk(c, log, socket, i, task, choice);
    case Verifying => JudgeOk(c, log, socket, i, task, choice);
    case Trusting => AdmitOk(c, log, socket, i, task, choice);
    case Emitted =>
      if !socket.Closed() {
        ForwardOk(c, log, socket, i, task);
      }
    case Forwarding =>
      EnterOk(c, log, socket, i, task, BeforeError);
      EnterOk(c, log, socket, i, task, AfterArtifact);
    case Finished =>
    case Crashed =>
  }

  lemma OthersOk(log: seq<Note>, more: seq<Note>, before: bool, after: bool, j: nat, task: Task)
    requires TaskOk(log, before, j, task) && (before ==> after)
    ensures TaskOk(log + more, after, j, task)
  {
    LogGrows(log, more, j, task.data);
  }

  lemma NewTaskOk(c: Config, log: seq<Note>, socket: Socket, i: nat, hook: Hook, parsed: Option<Artifact>)
    requires hook.BeforeParsing? || hook.BeforeError?
    ensures TaskOk(log, socket.Closed(), i, NewTask(c, socket, hook, parsed))
  {
  }

  lemma StepResumeOk(c: Config, s: State, i: nat, choice: Choice)
    requires StateOk(s)
    ensures StateOk(Step(c, s, Resume(i, choice)))
  {
    if i < |s.tasks| {
      var e := ResumeTask(c, s.socket, i, s.tasks[i], choice);
      ResumeOk(c, s.log, s.socket, i, s.tasks[i], choice);
      var r := Step(c, s, Resume(i, choice));
      forall j | 0 <= j < |r.tasks|
        ensures TaskOk(r.log, r.socket.Closed(), j, r.tasks[j])
      {
        if j != i {
          OthersOk(s.log, e.notes, s.socket.Closed(), e.socket.Closed(), j, s.tasks[j]);
        }
      }
    }
  }

  lemma StepOk(c: Config, s: State, event: Event)
    requires StateOk(s)
    ensures StateOk(Step(c, s, event))
  {
    if event.Resume? {
      StepResumeOk(c, s, event.task, event.choice);
    } else {
      var r := Step(c, s, event);
      match event {
        case Line(parsed) => NewTaskOk(c, s.log, s.socket, |s.tasks|, BeforeParsing, parsed);
        case Fault => NewTaskOk(c, s.log, s.socket, |s.tasks|, BeforeError, None);
        case ListenerThrew => NewTaskOk(c, s.log, s.socket, |s.tasks|, BeforeError, None);
        case Send(outcome) => SendKeeps(s.log, s.socket, Custom, outcome);
        case _ =>
      }
      assert r.log == s.log;
      forall j | 0 <= j < |s.tasks|
        ensures TaskOk(r.log, r.socket.Closed(), j, r.tasks[j])
      {
        assert TaskOk(s.log, s.socket.Closed(), j, s.tasks[j]);
      }
    }
  }

  lemma {:induction false} RunOk(c: Config, s: State, events: seq<Event>)
    requires StateOk(s)
    ensures StateOk(Run(c, s, events))
    decreases |events|
  {
    if events != [] {
      StepOk(c, s, events[0]);
      RunOk(c, Step(c, s, events[0]), events[1..]);
    }
  }

  // ---------- the notes are honest ----------

  predicate AllHonest(log: seq<Note>) {
    forall p | 0 <= p < |log| :: Honest(log[p])
  }

  lemma JudgementsHonest(c: Config, socket: Socket, i: nat, task: Task, choice: Choice)
    ensures AllHonest(Judge(c, socket, i, task, choice).notes)
    ensures AllHonest(Admit(c, socket, i, task, choice).notes)
    ensures AllHonest(Emit(c, socket, i, task, choice).notes)
  {
    if task.data.Some? {
      VerifiedExactly(choice.world, task.data.value);
      TrustedExactly(choice.world, task.data.value);
    }
  }

  lemma OthersSilent(c: Config, socket: Socket, i: nat, task: Task, choice: Choice)
    requires task.pc.Returned? && !task.pc.hook.BeforeArtifact?
    ensures Continue(c, socket, i, task, choice).notes == []
  {
  }

  lemma ResumeHonest(c: Config, socket: Socket, i: nat, task: Task, choice: Choice)
    ensures AllHonest(ResumeTask(c, socket, i, task, choice).notes)
  {
    if task.pc.Verifying? || task.pc.Trusting? || task.pc == Returned(BeforeArtifact) {
      JudgementsHonest(c, socket, i, task, choice);
    } else if task.pc.Returned? {
      OthersSilent(c, socket, i, task, choice);
    } else {
      assert forall note | note in ResumeTask(c, socket, i, task, choice).notes :: note.Delivered? || note.HookThrew?;
    }
  }

  lemma StepHonest(c: Config, s: State, event: Event)
    requires AllHonest(s.log)
    ensures AllHonest(Step(c, s, event).log)
  {
    if event.Resume? && event.task < |s.tasks| {
      ResumeHonest(c, s.socket, event.task, s.tasks[event.task], event.choice);
    }
  }

  lemma {:induction false} RunHonest(c: Config, s: State, events: seq<Event>)
    requires AllHonest(s.log)
    ensures AllHonest(Run(c, s, events).log)
    decreases |events|
  {
    if events != [] {
      StepHonest(c, s, events[0]);
      RunHonest(c, Step(c, s, events[0]), events[1..]);
    }
  }

  // ---------- safety over every run ----------

  /** Whatever the middleware does and however the lines interleave: an artifact reaches the
      listeners or the handler only after that very artifact was judged while it was signed by the
      party it has to come from and, later still, while the records entitled its sender. */
  lemma Gating(c: Config, events: seq<Event>, p: nat)
    requires p < |Run(c, OPEN, events).log| && Run(c, OPEN, events).log[p].Delivered?
    ensures var log := Run(c, OPEN, events).log;
            var i, data := log[p].task, log[p].data;
            exists q, r | 0 <= q < r < p ::
              && log[q].SigChecked? && log[q].task == i && log[q].data == data
              && Authentic(log[q].world, data)
              && log[r].TrustChecked? && log[r].task == i && log[r].data == data
              && Entitled(log[r].world, data)
  {
    RunOk(c, OPEN, events);
    RunHonest(c, OPEN, events);
    var log := Run(c, OPEN, events).log;
    var i, data := log[p].task, log[p].data;
    assert IsCleared(log[..p], i, data);
    var q, r :| 0 <= q < r < p && Accepts(log[..p][q], i, data) && Admits(log[..p][r], i, data);
    assert log[..p][q] == log[q] && log[..p][r] == log[r];
    assert Honest(log[q]) && Honest(log[r]);
  }

  /** A line whose handling completed leaves the socket ended or destroyed; handling fails to
      complete only where an error hook threw. */
  lemma NoHangingLine(c: Config, events: seq<Event>, i: nat)
    requires i < |Run(c, OPEN, events).tasks|
    ensures var s := Run(c, OPEN, events);
            && (s.tasks[i].pc.Finished? ==> s.socket.Closed())
            && (s.tasks[i].pc.Crashed? ==> HookThrew(i) in s.log)
  {
    RunOk(c, OPEN, events);
  }

  /** Handlers of the stage after an error never run: the socket is torn down before it. */
  lemma AfterErrorNeverRuns(c: Config, events: seq<Event>, i: nat, k: nat)
    requires i < |Run(c, OPEN, events).tasks|
    ensures Run(c, OPEN, events).tasks[i].pc != Running(AfterError, k)
  {
    RunOk(c, OPEN, events);
    assert TaskOk(Run(c, OPEN, events).log, Run(c, OPEN, events).socket.Closed(), i, Run(c, OPEN, events).tasks[i]);
  }

  // ---------- each artifact is delivered at most once ----------

  function DeliveriesOf(notes: seq<Note>, i: nat): seq<Note> {
    if notes == [] then []
    else (if notes[0].Delivered? && notes[0].task == i then [notes[0]] else []) + DeliveriesOf(notes[1..], i)
  }

  /** What a request that goes all the way delivers, in this order. */
  function Owed(c: Config, i: nat, data: Option<Artifact>): seq<Note> {
    if data.None? then []
    else [Delivered(i, data.value, Listeners)] + if c.forwards then [Delivered(i, data.value, HandlerFn)] else []
  }

  lemma {:induction false} DeliveriesJoin(a: seq<Note>, b: seq<Note>, i: nat)
    ensures DeliveriesOf(a + b, i) == DeliveriesOf(a, i) + DeliveriesOf(b, i)
  {
    if a == [] {
      assert a + b == b;
    } else {
      assert (a + b)[1..] == a[1..] + b;
      DeliveriesJoin(a[1..], b, i);
      var own := if a[0].Delivered? && a[0].task == i then [a[0]] else [];
      Associative(own, DeliveriesOf(a[1..], i), DeliveriesOf(b, i));
    }
  }

  lemma {:induction false} NoDeliveries(notes: seq<Note>, i: nat)
    requires forall p | 0 <= p < |notes| :: notes[p].task != i || !notes[p].Delivered?
    ensures DeliveriesOf(notes, i) == []
  {
    if notes != [] {
      NoDeliveries(notes[1..], i);
    }
  }

  datatype Stage = Ahead | ToHandler | Through | Over

  function StageOf(pc: Pc): Stage {
    match pc
    case Running(hook, _) => HookStage(hook)
    case Returned(hook) => HookStage(hook)
    case Verifying => Ahead
    case Trusting => Ahead
    case Emitted => ToHandler
    case Forwarding => Through
    case Finished => Over
    case Crashed => Over
  }

  function HookStage(hook: Hook): Stage {
    if OnError(hook) then Over else if hook == AfterArtifact then Through else Ahead
  }

  predicate OnceOk(c: Config, log: seq<Note>, i: nat, task: Task) {
    var done, owed := DeliveriesOf(log, i), Owed(c, i, task.data);
    match StageOf(task.pc)
    case Ahead => done == []
    case ToHandler => owed != [] && done == owed[..1]
    case Through => done == owed
    case Over => done <= owed
  }

  /** The only moves between the stages, with what they deliver. */
  predicate StageMove(c: Config, i: nat, task: Task, e: Effect) {
    var done, owed := DeliveriesOf(e.notes, i), Owed(c, i, task.data);
    match StageOf(task.pc)
    case Ahead =>
      || (done == [] && (StageOf(e.task.pc).Ahead? || (StageOf(e.task.pc).Over? && e.task.data == task.data)))
      || (e.task.data == task.data && owed != []
          && match StageOf(e.task.pc)
             case ToHandler => done == owed[..1]
             case Through => done == owed
             case Over => done == owed[..1]
             case Ahead => false)
    case ToHandler =>
      e.task.data == task.data
      && ((StageOf(e.task.pc).Over? && done == []) || (StageOf(e.task.pc).Through? && (owed != [] ==> done == owed[1..])))
    case Through => e.task.data == task.data && done == [] && (StageOf(e.task.pc).Through? || StageOf(e.task.pc).Over?)
    case Over => e.task.data == task.data && done == [] && StageOf(e.task.pc).Over?
  }

  lemma MoveKeepsOnce(c: Config, log: seq<Note>, i: nat, task: Task, e: Effect)
    requires OnceOk(c, log, i, task) && StageMove(c, i, task, e)
    ensures OnceOk(c, log + e.notes, i, e.task)
  {
    DeliveriesJoin(log, e.notes, i);
    var done, more, owed := DeliveriesOf(log, i), DeliveriesOf(e.notes, i), Owed(c, i, task.data);
    if StageOf(task.pc).ToHandler? && StageOf(e.task.pc).Through? {
      assert owed[..1] + owed[1..] == owed;
    }
    assert [] + more == more && done + [] == done;
  }

  lemma EnterMove(c: Config, socket: Socket, hook: Hook)
    ensures StageOf(EnterHook(c, socket, hook)) == HookStage(hook) || StageOf(EnterHook(c, socket, hook)).Over?
  {
  }

  lemma OwedDelivered(c: Config, i: nat, data: Artifact)
    ensures var owed := Owed(c, i, Some(data));
            DeliveriesOf(owed, i) == owed && DeliveriesOf(owed[..1], i) == owed[..1] && DeliveriesOf(owed[1..], i) == owed[1..]
  {
    var owed := Owed(c, i, Some(data));
    assert owed == owed[..1] + owed[1..];
    assert owed[..1][1..] == [] && (c.forwards ==> owed[1..][1..] == []);
    DeliveriesJoin(owed[..1], owed[1..], i);
  }

  /** Emitting serves the listeners, and the handler too where nothing has to be waited for. */
  lemma EmitShape(c: Config, socket: Socket, i: nat, task: Task, choice: Choice)
    requires task.data.Some?
    ensures var e, owed := Emit(c, socket, i, task, choice), Owed(c, i, task.data);
            && e.task.data == task.data && e.socket == socket
            && if choice.throws && !(task.data.value.Agent? && task.data.value.respondNow) then
                 e.notes == owed[..1] && e.task.pc == EnterHook(c, socket, BeforeError)
               else if task.data.value.Agent? then e.notes == owed[..1] && e.task.pc == Emitted
               else e.notes == owed && e.task.pc == Forwarding
  {
  }

  lemma EmitMove(c: Config, socket: Socket, i: nat, task: Task, choice: Choice)
    requires task.pc == Returned(BeforeArtifact)
    ensures StageMove(c, i, task, Emit(c, socket, i, task, choice))
  {
    EnterMove(c, socket, BeforeError);
    if task.data.Some? {
      EmitShape(c, socket, i, task, choice);
      OwedDelivered(c, i, task.data.value);
    }
  }

  lemma JudgementMove(c: Config, socket: Socket, i: nat, task: Task, choice: Choice)
    requires StageOf(task.pc).Ahead?
    ensures StageMove(c, i, task, Judge(c, socket, i, task, choice)) && StageMove(c, i, task, Admit(c, socket, i, task, choice))
  {
    EnterMove(c, socket, BeforeError);
    EnterMove(c, socket, AfterSignature);
    EnterMove(c, socket, AfterTrust);
    NoDeliveries(Judge(c, socket, i, task, choice).notes, i);
    NoDeliveries(Admit(c, socket, i, task, choice).notes, i);
  }

  lemma ContinueMove(c: Config, socket: Socket, i: nat, task: Task, choice: Choice)
    requires task.pc.Returned? && !task.pc.hook.BeforeArtifact?
    ensures StageMove(c, i, task, Continue(c, socket, i, task, choice))
  {
    OthersSilent(c, socket, i, task, choice);
    match task.pc.hook
    case BeforeParsing => EnterMove(c, socket, AfterParsing);
    case AfterParsing => EnterMove(c, socket, BeforeSignature);
    case AfterSignature => EnterMove(c, socket, BeforeTrust);
    case AfterTrust => EnterMove(c, socket, BeforeArtifact);
    case BeforeError => EnterMove(c, SendOn(socket, Failed(i), choice.outcome).(destroyed := true), AfterError);
    case _ =>
  }

  lemma RunHookMove(c: Config, socket: Socket, i: nat, task: Task, choice: Choice)
    requires task.pc.Running?
    ensures StageMove(c, i, task, RunHook(c, socket, i, task, choice))
  {
    EnterMove(c, socket, BeforeError);
    NoDeliveries(RunHook(c, socket, i, task, choice).notes, i);
  }

  lemma ResumeMove(c: Config, socket: Socket, i: nat, task: Task, choice: Choice)
    ensures StageMove(c, i, task, ResumeTask(c, socket, i, task, choice))
  {
    EnterMove(c, socket, BeforeError);
    match task.pc
    case Running(_, _) => RunHookMove(c, socket, i, task, choice);
    case Returned(hook) =>
      if hook.BeforeArtifact? {
        EmitMove(c, socket, i, task, choice);
      } else {
        ContinueMove(c, socket, i, task, choice);
      }
    case Verifying => JudgementMove(c, socket, i, task, choice);
    case Trusting => JudgementMove(c, socket, i, task, choice);
    case Emitted =>
    case Forwarding => EnterMove(c, socket, AfterArtifact);
    case Finished =>
    case Crashed =>
  }

  /** A task makes notes about itself only. */
  predicate OwnNotes(notes: seq<Note>, i: nat) {
    forall p | 0 <= p < |notes| :: notes[p].task == i
  }

  lemma ResumeOwnNotes(c: Config, socket: Socket, i: nat, task: Task, choice: Choice)
    ensures OwnNotes(ResumeTask(c, socket, i, task, choice).notes, i)
  {
    if task.pc.Returned? {
      if task.pc.hook.BeforeArtifact? {
        assert OwnNotes(Emit(c, socket, i, task, choice).notes, i);
      } else {
        OthersSilent(c, socket, i, task, choice);
      }
    }
  }

  ghost predicate AllOnce(c: Config, s: State) {
    && (forall p | 0 <= p < |s.log| :: s.log[p].task < |s.tasks|)
    && forall i | 0 <= i < |s.tasks| :: OnceOk(c, s.log, i, s.tasks[i])
  }

  lemma ApplyOnce(c: Config, s: State, i: nat, e: Effect)
    requires AllOnce(c, s) && i < |s.tasks| && OwnNotes(e.notes, i) && StageMove(c, i, s.tasks[i], e)
    ensures AllOnce(c, Apply(s, i, e))
  {
    MoveKeepsOnce(c, s.log, i, s.tasks[i], e);
    forall j | 0 <= j < |s.tasks| && j != i
      ensures OnceOk(c, s.log + e.notes, j, s.tasks[j])
    {
      NoDeliveries(e.notes, j);
      DeliveriesJoin(s.log, e.notes, j);
      assert DeliveriesOf(s.log, j) + [] == DeliveriesOf(s.log, j);
    }
  }

  lemma StepResumeOnce(c: Config, s: State, i: nat, choice: Choice)
    requires AllOnce(c, s) && i < |s.tasks|
    ensures AllOnce(c, Step(c, s, Resume(i, choice)))
  {
    ResumeOwnNotes(c, s.socket, i, s.tasks[i], choice);
    ResumeMove(c, s.socket, i, s.tasks[i], choice);
    ApplyOnce(c, s, i, ResumeTask(c, s.socket, i, s.tasks[i], choice));
  }

  lemma NewTaskOnce(c: Config, s: State, hook: Hook, parsed: Option<Artifact>)
    requires AllOnce(c, s) && (hook.BeforeParsing? || hook.BeforeError?)
    ensures OnceOk(c, s.log, |s.tasks|, NewTask(c, s.socket, hook, parsed))
  {
    NoDeliveries(s.log, |s.tasks|);
    EnterMove(c, s.socket, hook);
  }

  lemma AddTaskOnce(c: Config, s: State, task: Task)
    requires AllOnce(c, s) && OnceOk(c, s.log, |s.tasks|, task)
    ensures AllOnce(c, s.(tasks := s.tasks + [task]))
  {
  }

  lemma OverwriteOnce(c: Config, s: State, i: nat, ctx: Context)
    requires AllOnce(c, s) && i < |s.tasks|
    ensures AllOnce(c, s.(tasks := s.tasks[i := s.tasks[i].(ctx := ctx)]))
  {
    assert OnceOk(c, s.log, i, s.tasks[i].(ctx := ctx));
  }

  lemma StepOnce(c: Config, s: State, event: Event)
    requires AllOnce(c, s)
    ensures AllOnce(c, Step(c, s, event))
  {
    match event
    case Resume(i, choice) =>
      if i < |s.tasks| {
        StepResumeOnce(c, s, i, choice);
      }
    case Line(parsed) =>
      NewTaskOnce(c, s, BeforeParsing, parsed);
      AddTaskOnce(c, s, NewTask(c, s.socket, BeforeParsing, parsed));
    case Fault =>
      NewTaskOnce(c, s, BeforeError, None);
      AddTaskOnce(c, s, NewTask(c, s.socket, BeforeError, None));
    case ListenerThrew =>
      NewTaskOnce(c, s, BeforeError, None);
      AddTaskOnce(c, s, NewTask(c, s.socket, BeforeError, None));
    case Overwrite(i, ctx) =>
      if i < |s.tasks| {
        OverwriteOnce(c, s, i, ctx);
      }
    case _ =>
  }

  lemma {:induction false} RunOnce(c: Config, s: State, events: seq<Event>)
    requires AllOnce(c, s)
    ensures AllOnce(c, Run(c, s, events))
    decreases |events|
  {
    if events != [] {
      StepOnce(c, s, events[0]);
      RunOnce(c, Step(c, s, events[0]), events[1..]);
    }
  }

  /** Over every interleaving each request delivers its artifact at most once to the listeners
      and then at most once to the handler, and nothing else. */
  lemma DeliveredOnce(c: Config, events: seq<Event>, i: nat)
    requires i < |Run(c, OPEN, events).tasks|
    ensures var s := Run(c, OPEN, events);
            DeliveriesOf(s.log, i) <= Owed(c, i, s.tasks[i].data)
  {
    RunOnce(c, OPEN, events);
    assert OnceOk(c, Run(c, OPEN, events).log, i, Run(c, OPEN, events).tasks[i]);
  }

  // ---------- a closed socket and an exception stop a request ----------

  /** Nothing was judged or delivered for this request in between. */
  predicate NothingFor(i: nat, log: seq<Note>, longer: seq<Note>) {
    log <= longer && forall p | |log| <= p < |longer| && longer[p].task == i :: longer[p].HookThrew?
  }

  predicate Halted(s: State, i: nat) {
    && i < |s.tasks|
    && (StageOf(s.tasks[i].pc).Over? || (s.socket.Closed() && (s.tasks[i].pc.Running? || s.tasks[i].pc.Emitted?)))
  }

  lemma HaltedTask(c: Config, socket: Socket, i: nat, task: Task, choice: Choice)
    requires StageOf(task.pc).Over? || (socket.Closed() && (task.pc.Running? || task.pc.Emitted?))
    ensures var e := ResumeTask(c, socket, i, task, choice);
            && StageOf(e.task.pc).Over?
            && forall note | note in e.notes :: note.HookThrew?
  {
    EnterMove(c, socket, BeforeError);
    match task.pc
    case Running(_, _) =>
    case Returned(_) =>
      ContinueMove(c, socket, i, task, choice);
      OthersSilent(c, socket, i, task, choice);
    case _ =>
  }

  lemma StepHalted(c: Config, s: State, event: Event, i: nat)
    requires Halted(s, i)
    ensures Halted(Step(c, s, event), i) && NothingFor(i, s.log, Step(c, s, event).log)
  {
    if event.Resume? && event.task < |s.tasks| {
      var j := event.task;
      ResumeOwnNotes(c, s.socket, j, s.tasks[j], event.choice);
      if j == i {
        HaltedTask(c, s.socket, i, s.tasks[i], event.choice);
      } else if s.socket.Closed() {
        StaysClosed(c, s.socket, j, s.tasks[j], event.choice);
      }
    }
  }

  lemma StaysClosed(c: Config, socket: Socket, i: nat, task: Task, choice: Choice)
    requires socket.Closed()
    ensures ResumeTask(c, socket, i, task, choice).socket.Closed()
  {
    if !task.pc.Returned? {
      WaitsSilent(c, socket, i, task, choice);
    } else if task.pc.hook.BeforeArtifact? {
      EmitSilent(c, socket, i, task, choice);
    }
  }

  lemma {:induction false} RunHalted(c: Config, s: State, events: seq<Event>, i: nat)
    requires Halted(s, i)
    ensures NothingFor(i, s.log, Run(c, s, events).log)
    decreases |events|
  {
    if events != [] {
      StepHalted(c, s, events[0], i);
      RunHalted(c, Step(c, s, events[0]), events[1..], i);
    }
  }

  /** A request that waits for a handler or for listeners while the socket is closed is neither
      judged nor delivered any more, whatever happens after. */
  lemma ClosedSocketStops(c: Config, s: State, i: nat, after: seq<Event>)
    requires i < |s.tasks| && (s.tasks[i].pc.Running? || s.tasks[i].pc.Emitted?) && s.socket.Closed()
    ensures var longer := Run(c, s, after).log;
            s.log <= longer && forall p | |s.log| <= p < |longer| && longer[p].task == i :: longer[p].HookThrew?
  {
    RunHalted(c, s, after, i);
  }

  /** So a handler that answers, however the answer goes, stops its request. */
  lemma MiddlewareAnswerStops(c: Config, s: State, i: nat, outcome: SendOutcome, after: seq<Event>)
    requires i < |s.tasks| && s.tasks[i].pc.Running?
    ensures var longer := Run(c, s, [Send(outcome)] + after).log;
            s.log <= longer && forall p | |s.log| <= p < |longer| && longer[p].task == i :: longer[p].HookThrew?
  {
    assert ([Send(outcome)] + after)[1..] == after;
    ClosedSocketStops(c, Step(c, s, Send(outcome)), i, after);
  }

  /** Where an exception can reach the pipeline: a handler, a judgement, a listener nobody waits
      for, the forwarding function. */
  predicate CanFail(c: Config, task: Task) {
    match task.pc
    case Running(hook, _) => !hook.BeforeError? && !hook.AfterError?
    case Verifying => true
    case Trusting => true
    case Returned(BeforeArtifact) => task.data.Some? && (task.data.value.Agent? ==> !task.data.value.respondNow)
    case Forwarding => c.forwards
    case _ => false
  }

  /** An exception there takes the request to the error path, and nothing is judged or delivered
      for it any more. */
  lemma ExceptionStops(c: Config, s: State, i: nat, choice: Choice, after: seq<Event>)
    requires i < |s.tasks| && CanFail(c, s.tasks[i]) && choice.throws
    ensures var r := Step(c, s, Resume(i, choice));
            && r.tasks[i].pc in [Running(BeforeError, 0), Returned(BeforeError)]
            && (!s.tasks[i].pc.Returned? ==> r.log == s.log)
            && r.log <= Run(c, r, after).log
            && forall p | |r.log| <= p < |Run(c, r, after).log| && Run(c, r, after).log[p].task == i :: Run(c, r, after).log[p].HookThrew?
  {
    var r := Step(c, s, Resume(i, choice));
    FailsTo(c, s.socket, i, s.tasks[i], choice);
    RunHalted(c, r, after, i);
  }

  lemma FailsTo(c: Config, socket: Socket, i: nat, task: Task, choice: Choice)
    requires CanFail(c, task) && choice.throws
    ensures var e := ResumeTask(c, socket, i, task, choice);
            && e.task.pc in [Running(BeforeError, 0), Returned(BeforeError)]
            && (!task.pc.Returned? ==> e.notes == [])
  {
    if task.pc.Returned? {
      EmitShape(c, socket, i, task, choice);
    }
  }

  /** A listener that is waited for cannot fail the pipeline. */
  lemma AwaitedListenersCannotFail(c: Config, s: State, i: nat, choice: Choice)
    requires i < |s.tasks| && s.tasks[i].pc == Returned(BeforeArtifact)
    requires s.tasks[i].data.Some? && s.tasks[i].data.value.Agent? && s.tasks[i].data.value.respondNow
    ensures Step(c, s, Resume(i, choice)).tasks[i].pc == Emitted
  {
    EmitShape(c, s.socket, i, s.tasks[i], choice);
  }

  // ---------- which handlers run, and in which order ----------

  datatype Handler = Handler(hook: Hook, k: nat)

  function First(hook: Hook, n: nat): seq<Handler> {
    if n == 0 then [] else First(hook, n - 1) + [Handler(hook, n - 1)]
  }

  /** All handlers of the stages before this one, in the order of the stages. */
  function PlanBefore(c: Config, hook: Hook): seq<Handler>
    decreases 9 - HooksLeft(hook)
  {
    match hook
    case BeforeParsing => []
    case AfterParsing => PlanBefore(c, BeforeParsing) + First(BeforeParsing, Count(c, BeforeParsing))
    case BeforeSignature => PlanBefore(c, AfterParsing) + First(AfterParsing, Count(c, AfterParsing))
    case AfterSignature => PlanBefore(c, BeforeSignature) + First(BeforeSignature, Count(c, BeforeSignature))
    case BeforeTrust => PlanBefore(c, AfterSignature) + First(AfterSignature, Count(c, AfterSignature))
    case AfterTrust => PlanBefore(c, BeforeTrust) + First(BeforeTrust, Count(c, BeforeTrust))
    case BeforeArtifact => PlanBefore(c, AfterTrust) + First(AfterTrust, Count(c, AfterTrust))
    case AfterArtifact => PlanBefore(c, BeforeArtifact) + First(BeforeArtifact, Count(c, BeforeArtifact))
    case _ => PlanBefore(c, AfterArtifact) + First(AfterArtifact, Count(c, AfterArtifact))
  }

  function FullPlan(c: Config): seq<Handler> {
    PlanBefore(c, BeforeError)
  }

  /** The handlers a request has started when it is suspended here, short of the error path. */
  function Planned(c: Config, pc: Pc): seq<Handler> {
    match pc
    case Running(hook, k) => PlanBefore(c, hook) + First(hook, k + 1)
    case Returned(hook) => PlanBefore(c, hook) + First(hook, Count(c, hook))
    case Verifying => PlanBefore(c, AfterSignature)
    case Trusting => PlanBefore(c, AfterTrust)
    case Emitted => PlanBefore(c, AfterArtifact)
    case Forwarding => PlanBefore(c, AfterArtifact)
    case _ => FullPlan(c)
  }

  /** The handler whose start this step is, if it is one. */
  function StartIn(before: State, after: State, i: nat): seq<Handler> {
    if i < |after.tasks| && after.tasks[i].pc.Running? && (i < |before.tasks| ==> before.tasks[i].pc != after.tasks[i].pc)
    then [Handler(after.tasks[i].pc.hook, after.tasks[i].pc.k)]
    else []
  }

  /** The handlers started for a request in a run, in the order of their starts. */
  function Started(c: Config, s: State, events: seq<Event>, i: nat): seq<Handler>
    decreases |events|
  {
    if events == [] then []
    else StartIn(s, Step(c, s, events[0]), i) + Started(c, Step(c, s, events[0]), events[1..], i)
  }

  lemma FirstGrows(hook: Hook, n: nat, m: nat)
    requires n <= m
    ensures First(hook, n) <= First(hook, m)
    decreases m
  {
    if n < m {
      FirstGrows(hook, n, m - 1);
    }
  }

  lemma {:induction false} PlanGrows(c: Config, hook: Hook)
    ensures PlanBefore(c, hook) <= FullPlan(c)
    ensures !OnError(hook) ==> PlanBefore(c, hook) + First(hook, Count(c, hook)) <= FullPlan(c)
    decreases HooksLeft(hook)
  {
    match hook
    case BeforeParsing => PlanGrows(c, AfterParsing);
    case AfterParsing => PlanGrows(c, BeforeSignature);
    case BeforeSignature => PlanGrows(c, AfterSignature);
    case AfterSignature => PlanGrows(c, BeforeTrust);
    case BeforeTrust => PlanGrows(c, AfterTrust);
    case AfterTrust => PlanGrows(c, BeforeArtifact);
    case BeforeArtifact => PlanGrows(c, AfterArtifact);
    case _ =>
  }

  predicate PcOk(c: Config, pc: Pc) {
    pc.Running? ==> pc.k < Count(c, pc.hook) && !pc.hook.AfterError?
  }

  lemma PlannedInPlan(c: Config, pc: Pc)
    requires PcOk(c, pc) && !StageOf(pc).Over?
    ensures Planned(c, pc) <= FullPlan(c)
  {
    match pc
    case Running(hook, k) =>
      PlanGrows(c, hook);
      FirstGrows(hook, k + 1, Count(c, hook));
    case Returned(hook) => PlanGrows(c, hook);
    case Verifying => PlanGrows(c, AfterSignature);
    case Trusting => PlanGrows(c, AfterTrust);
    case Emitted => PlanGrows(c, AfterArtifact);
    case Forwarding => PlanGrows(c, AfterArtifact);
  }

  function StartOf(before: Pc, after: Pc): seq<Handler> {
    if after.Running? && before != after then [Handler(after.hook, after.k)] else []
  }

  /** What has been started for a task in this place, on the error path too. */
  ghost predicate History(c: Config, pc: Pc, started: seq<Handler>) {
    && PcOk(c, pc)
    && if !StageOf(pc).Over? then started == Planned(c, pc)
       else exists n, m | 0 <= n <= |FullPlan(c)| && 0 <= m <= Count(c, BeforeError) ::
              started == FullPlan(c)[..n] + First(BeforeError, m) && (pc.Running? ==> m == pc.k + 1)
  }

  lemma EnterPlan(c: Config, socket: Socket, hook: Hook)
    requires !OnError(hook)
    ensures var pc := EnterHook(c, socket, hook);
            && PcOk(c, pc)
            && (!StageOf(pc).Over? ==> Planned(c, pc) == PlanBefore(c, hook) + if pc.Running? then [Handler(hook, 0)] else [])
            && (pc.Running? ==> pc == Running(hook, 0))
  {
    assert First(hook, 0) == [] && First(hook, 1) == [] + [Handler(hook, 0)];
  }

  /** The moves of the plan: to the next handler, to the next stage, or off it. */
  predicate PlanMove(c: Config, before: Pc, after: Pc) {
    && PcOk(c, after)
    && if StageOf(before).Over? then
         StageOf(after).Over? && (after.Running? && after != before ==> before.Running? && after == Running(BeforeError, before.k + 1))
       else if StageOf(after).Over? then after.Running? ==> after == Running(BeforeError, 0)
       else Planned(c, after) == Planned(c, before) + StartOf(before, after)
  }

  lemma NextPlan(c: Config, hook: Hook, k: nat)
    requires k + 1 < Count(c, hook) && PcOk(c, Running(hook, k))
    ensures PlanMove(c, Running(hook, k), Running(hook, k + 1))
  {
    assert First(hook, k + 2) == First(hook, k + 1) + [Handler(hook, k + 1)];
    Associative(PlanBefore(c, hook), First(hook, k + 1), [Handler(hook, k + 1)]);
  }

  lemma LastPlan(c: Config, hook: Hook, k: nat)
    requires (k + 1 >= Count(c, hook) || OnError(hook)) && PcOk(c, Running(hook, k))
    ensures PlanMove(c, Running(hook, k), Returned(hook))
  {
  }

  lemma RunHookPc(c: Config, socket: Socket, i: nat, task: Task, choice: Choice)
    requires task.pc.Running?
    ensures var hook, k, pc := task.pc.hook, task.pc.k, RunHook(c, socket, i, task, choice).task.pc;
            if !pc.Running? && !pc.Returned? then StageOf(pc).Over?
            else if pc.Running? then
              || (pc.hook == hook && pc.k == k + 1 && k + 1 < Count(c, hook))
              || (!OnError(hook) && pc == Running(BeforeError, 0) && PcOk(c, pc))
            else (pc == Returned(hook) && k + 1 >= Count(c, hook)) || OnError(pc.hook)
  {
  }

  lemma RunHookPlan(c: Config, socket: Socket, i: nat, task: Task, choice: Choice)
    requires task.pc.Running? && PcOk(c, task.pc)
    ensures PlanMove(c, task.pc, RunHook(c, socket, i, task, choice).task.pc)
  {
    var hook, k, pc := task.pc.hook, task.pc.k, RunHook(c, socket, i, task, choice).task.pc;
    RunHookPc(c, socket, i, task, choice);
    if pc == Running(hook, k + 1) {
      NextPlan(c, hook, k);
    } else if pc == Returned(hook) {
      LastPlan(c, hook, k);
    }
  }

  /** Where a request can go from a finished stage. */
  predicate AfterStagePc(c: Config, socket: Socket, hook: Hook, pc: Pc) {
    match hook
    case BeforeParsing => pc == EnterHook(c, socket, AfterParsing)
    case AfterParsing => pc == Finished || pc == EnterHook(c, socket, BeforeSignature)
    case BeforeSignature => pc == Verifying
    case AfterSignature => pc == Finished || pc == EnterHook(c, socket, BeforeTrust)
    case BeforeTrust => pc == Trusting
    case AfterTrust => pc == Finished || pc == EnterHook(c, socket, BeforeArtifact)
    case BeforeArtifact => pc == Emitted || pc == Forwarding || pc == EnterHook(c, socket, BeforeError)
    case AfterArtifact => pc == Finished
    case BeforeError => pc == Returned(AfterError)
    case AfterError => pc == Finished
  }

  lemma ContinuePc(c: Config, socket: Socket, i: nat, task: Task, choice: Choice)
    requires task.pc.Returned?
    ensures AfterStagePc(c, socket, task.pc.hook, Continue(c, socket, i, task, choice).task.pc)
  {
    if task.pc.hook.BeforeArtifact? {
      EmitPc(c, socket, i, task, choice);
    }
  }

  /** And from any other wait. */
  predicate AfterWaitPc(c: Config, socket: Socket, before: Pc, pc: Pc) {
    match before
    case Verifying => pc == EnterHook(c, socket, BeforeError) || pc == EnterHook(c, socket, AfterSignature)
    case Trusting => pc == EnterHook(c, socket, BeforeError) || pc == EnterHook(c, socket, AfterTrust)
    case Emitted => pc == Finished || pc == Forwarding
    case Forwarding => pc == EnterHook(c, socket, BeforeError) || pc == EnterHook(c, socket, AfterArtifact)
    case _ => pc == before
  }

  lemma WaitPc(c: Config, socket: Socket, i: nat, task: Task, choice: Choice)
    requires !task.pc.Returned? && !task.pc.Running?
    ensures AfterWaitPc(c, socket, task.pc, ResumeTask(c, socket, i, task, choice).task.pc)
  {
    if task.pc.Verifying? || task.pc.Trusting? {
      JudgementPc(c, socket, i, task, choice);
    }
  }

  lemma NextStagePlan(c: Config, socket: Socket, before: Pc, next: Hook)
    requires !before.Running? && !StageOf(before).Over? && !OnError(next) && Planned(c, before) == PlanBefore(c, next)
    ensures PlanMove(c, before, EnterHook(c, socket, next))
  {
    EnterPlan(c, socket, next);
  }

  lemma ErrorPlan(c: Config, socket: Socket, before: Pc)
    requires !StageOf(before).Over?
    ensures PlanMove(c, before, EnterHook(c, socket, BeforeError))
  {
  }

  lemma StagePlan(c: Config, socket: Socket, hook: Hook, pc: Pc)
    requires AfterStagePc(c, socket, hook, pc)
    ensures PlanMove(c, Returned(hook), pc)
  {
    match hook
    case BeforeParsing => NextStagePlan(c, socket, Returned(hook), AfterParsing);
    case AfterParsing => NextStagePlan(c, socket, Returned(hook), BeforeSignature);
    case AfterSignature => NextStagePlan(c, socket, Returned(hook), BeforeTrust);
    case AfterTrust => NextStagePlan(c, socket, Returned(hook), BeforeArtifact);
    case BeforeArtifact => ErrorPlan(c, socket, Returned(hook));
    case _ =>
  }

  lemma WaitPlan(c: Config, socket: Socket, before: Pc, pc: Pc)
    requires !before.Returned? && !before.Running? && AfterWaitPc(c, socket, before, pc)
    ensures PlanMove(c, before, pc)
  {
    if !StageOf(before).Over? {
      ErrorPlan(c, socket, before);
    }
    match before
    case Verifying => NextStagePlan(c, socket, before, AfterSignature);
    case Trusting => NextStagePlan(c, socket, before, AfterTrust);
    case Forwarding => NextStagePlan(c, socket, before, AfterArtifact);
    case _ =>
  }

  lemma ResumePlan(c: Config, socket: Socket, i: nat, task: Task, choice: Choice)
    requires PcOk(c, task.pc)
    ensures PlanMove(c, task.pc, ResumeTask(c, socket, i, task, choice).task.pc)
  {
    var pc := ResumeTask(c, socket, i, task, choice).task.pc;
    if task.pc.Running? {
      RunHookPlan(c, socket, i, task, choice);
    } else if task.pc.Returned? {
      ContinuePc(c, socket, i, task, choice);
      StagePlan(c, socket, task.pc.hook, pc);
    } else {
      WaitPc(c, socket, i, task, choice);
      WaitPlan(c, socket, task.pc, pc);
    }
  }

  lemma MoveKeepsHistory(c: Config, before: Pc, after: Pc, started: seq<Handler>)
    requires History(c, before, started) && PlanMove(c, before, after)
    ensures History(c, after, started + StartOf(before, after))
  {
    var full, errors := FullPlan(c), Count(c, BeforeError);
    assert started + [] == started;
    if StageOf(after).Over? {
      if StageOf(before).Over? {
        var n, m :| && 0 <= n <= |full| && 0 <= m <= errors && started == full[..n] + First(BeforeError, m)
                    && (before.Running? ==> m == before.k + 1);
        if after.Running? && after != before {
          assert First(BeforeError, m + 1) == First(BeforeError, m) + [Handler(BeforeError, m)];
          Associative(full[..n], First(BeforeError, m), [Handler(BeforeError, m)]);
          assert started + StartOf(before, after) == full[..n] + First(BeforeError, m + 1);
        }
      } else {
        PlannedInPlan(c, before);
        assert started == full[..|started|];
        if after.Running? {
          assert First(BeforeError, 1) == [] + [Handler(BeforeError, 0)];
          assert started + StartOf(before, after) == full[..|started|] + First(BeforeError, 1);
        } else {
          assert started == full[..|started|] + First(BeforeError, 0);
        }
      }
    }
  }

  ghost predicate HistoryOf(c: Config, s: State, i: nat, started: seq<Handler>) {
    if i < |s.tasks| then History(c, s.tasks[i].pc, started) else started == []
  }

  lemma NewTaskHistory(c: Config, socket: Socket, hook: Hook)
    requires hook.BeforeParsing? || hook.BeforeError?
    ensures var pc := EnterHook(c, socket, hook);
            History(c, pc, if pc.Running? then [Handler(pc.hook, pc.k)] else [])
  {
    var pc, full := EnterHook(c, socket, hook), FullPlan(c);
    if hook.BeforeParsing? {
      EnterPlan(c, socket, hook);
      assert [] + [Handler(hook, 0)] == [Handler(hook, 0)];
      assert full[..0] + First(BeforeError, 0) == [];
    } else {
      assert First(BeforeError, 1) == [] + [Handler(BeforeError, 0)];
      assert full[..0] + First(BeforeError, 1) == [Handler(BeforeError, 0)];
      assert full[..0] + First(BeforeError, 0) == [];
    }
  }

  lemma StepHistory(c: Config, s: State, event: Event, i: nat, started: seq<Handler>)
    requires HistoryOf(c, s, i, started)
    ensures HistoryOf(c, Step(c, s, event), i, started + StartIn(s, Step(c, s, event), i))
  {
    assert started + [] == started && [] + StartIn(s, Step(c, s, event), i) == StartIn(s, Step(c, s, event), i);
    match event
    case Line(_) => NewTaskHistory(c, s.socket, BeforeParsing);
    case Fault => NewTaskHistory(c, s.socket, BeforeError);
    case ListenerThrew => NewTaskHistory(c, s.socket, BeforeError);
    case Resume(j, choice) =>
      if j == i && i < |s.tasks| {
        ResumePlan(c, s.socket, i, s.tasks[i], choice);
        MoveKeepsHistory(c, s.tasks[i].pc, ResumeTask(c, s.socket, i, s.tasks[i], choice).task.pc, started);
      }
    case _ =>
  }

  lemma {:induction false} RunHistory(c: Config, s: State, events: seq<Event>, i: nat, started: seq<Handler>)
    requires HistoryOf(c, s, i, started)
    ensures HistoryOf(c, Run(c, s, events), i, started + Started(c, s, events, i))
    decreases |events|
  {
    if events == [] {
      assert started + [] == started;
    } else {
      var s' := Step(c, s, events[0]);
      StepHistory(c, s, events[0], i, started);
      RunHistory(c, s', events[1..], i, started + StartIn(s, s', i));
      Associative(started, StartIn(s, s', i), Started(c, s', events[1..], i));
    }
  }

  /** Over every interleaving the handlers of a request run in the order of the stages, none
      skipped and none twice, as far as it gets; then at most the error handlers, in order. */
  lemma HandlersInOrder(c: Config, events: seq<Event>, i: nat)
    requires i < |Run(c, OPEN, events).tasks|
    ensures exists n, m | 0 <= n <= |FullPlan(c)| && 0 <= m <= Count(c, BeforeError) ::
              Started(c, OPEN, events, i) == FullPlan(c)[..n] + First(BeforeError, m)
  {
    RunHistory(c, OPEN, events, i, []);
    var started, pc := Started(c, OPEN, events, i), Run(c, OPEN, events).tasks[i].pc;
    assert [] + started == started;
    if !StageOf(pc).Over? {
      PlannedInPlan(c, pc);
      assert started == FullPlan(c)[..|started|] + First(BeforeError, 0);
    }
  }

  /** No handler is started on a closed socket. */
  lemma {:induction false} NoneStartedWhenClosed(c: Config, s: State, events: seq<Event>, i: nat)
    requires s.socket.Closed()
    ensures Started(c, s, events, i) == []
    decreases |events|
  {
    if events != [] {
      StepWhenClosed(c, s, events[0], i);
      NoneStartedWhenClosed(c, Step(c, s, events[0]), events[1..], i);
    }
  }

  lemma StepWhenClosed(c: Config, s: State, event: Event, i: nat)
    requires s.socket.Closed()
    ensures Step(c, s, event).socket.Closed() && StartIn(s, Step(c, s, event), i) == []
  {
    if event.Resume? && event.task < |s.tasks| {
      var j := event.task;
      StaysClosed(c, s.socket, j, s.tasks[j], event.choice);
      NoStartWhenClosed(c, s.socket, j, s.tasks[j], event.choice);
    }
  }

  lemma NoStartWhenClosed(c: Config, socket: Socket, i: nat, task: Task, choice: Choice)
    requires socket.Closed()
    ensures !ResumeTask(c, socket, i, task, choice).task.pc.Running?
  {
    if task.pc.Returned? {
      ContinuePc(c, socket, i, task, choice);
    } else if !task.pc.Running? {
      WaitPc(c, socket, i, task, choice);
    }
  }

  // ---------- no judgement and no delivery ahead of its handlers ----------

  /** The handlers that have to be started before this is noted. */
  function Required(c: Config, note: Note): seq<Handler> {
    match note
    case SigChecked(_, _, _, _) => PlanBefore(c, AfterSignature)
    case TrustChecked(_, _, _, _) => PlanBefore(c, AfterTrust)
    case Delivered(_, _, _) => PlanBefore(c, AfterArtifact)
    case HookThrew(_) => []
  }

  predicate AfterHandlers(c: Config, log: seq<Note>, i: nat, started: seq<Handler>) {
    forall p | 0 <= p < |log| && log[p].task == i :: Required(c, log[p]) <= started
  }

  lemma NotesAfterHandlers(c: Config, socket: Socket, i: nat, task: Task, choice: Choice, started: seq<Handler>)
    requires History(c, task.pc, started)
    ensures forall note | note in ResumeTask(c, socket, i, task, choice).notes :: Required(c, note) <= started
  {
    if task.pc.Returned? {
      if task.pc.hook.BeforeArtifact? {
        assert started == PlanBefore(c, AfterArtifact);
        assert forall note | note in Emit(c, socket, i, task, choice).notes :: note.Delivered?;
      } else {
        OthersSilent(c, socket, i, task, choice);
      }
    }
  }

  lemma {:induction false} RunAfterHandlers(c: Config, s: State, events: seq<Event>, i: nat, started: seq<Handler>)
    requires HistoryOf(c, s, i, started) && AfterHandlers(c, s.log, i, started)
    ensures AfterHandlers(c, Run(c, s, events).log, i, started + Started(c, s, events, i))
    decreases |events|
  {
    if events == [] {
      assert started + [] == started;
    } else {
      var s' := Step(c, s, events[0]);
      var more := StartIn(s, s', i);
      StepHistory(c, s, events[0], i, started);
      StepAfterHandlers(c, s, events[0], i, started);
      RunAfterHandlers(c, s', events[1..], i, started + more);
      Associative(started, more, Started(c, s', events[1..], i));
    }
  }

  lemma StepAfterHandlers(c: Config, s: State, event: Event, i: nat, started: seq<Handler>)
    requires HistoryOf(c, s, i, started) && AfterHandlers(c, s.log, i, started)
    ensures AfterHandlers(c, Step(c, s, event).log, i, started + StartIn(s, Step(c, s, event), i))
  {
    var s' := Step(c, s, event);
    if event.Resume? && event.task < |s.tasks| {
      var j := event.task;
      ResumeOwnNotes(c, s.socket, j, s.tasks[j], event.choice);
      if j == i {
        NotesAfterHandlers(c, s.socket, i, s.tasks[i], event.choice, started);
      }
      var notes := ResumeTask(c, s.socket, j, s.tasks[j], event.choice).notes;
      forall p | 0 <= p < |s'.log| && s'.log[p].task == i
        ensures Required(c, s'.log[p]) <= started
      {
        if p >= |s.log| {
          assert s'.log[p] == notes[p - |s.log|] && notes[p - |s.log|].task == j;
        }
      }
    }
    var more := started + StartIn(s, s', i);
    forall p | 0 <= p < |s'.log| && s'.log[p].task == i
      ensures Required(c, s'.log[p]) <= more
    {
      assert Required(c, s'.log[p]) <= started <= more;
    }
  }

  /** Over every interleaving no request is judged, trusted or delivered before every handler of
      every earlier stage was started for it: middleware cannot be gone round. */
  lemma HandlersComeFirst(c: Config, events: seq<Event>, p: nat)
    requires p < |Run(c, OPEN, events).log|
    ensures var note := Run(c, OPEN, events).log[p];
            Required(c, note) <= Started(c, OPEN, events, note.task)
  {
    var i := Run(c, OPEN, events).log[p].task;
    RunAfterHandlers(c, OPEN, events, i, []);
    assert [] + Started(c, OPEN, events, i) == Started(c, OPEN, events, i);
  }

  // ---------- one response, and a true one ----------

  /** What the tasks have to say for it: the line did not parse, or the request failed and goes no
      further. */
  predicate Matches(s: State, response: Response) {
    match response
    case Malformed(i) => i < |s.tasks| && s.tasks[i].parsed.None?
    case Failed(i) => i < |s.tasks| && StageOf(s.tasks[i].pc).Over?
    case _ => true
  }

  /** A response worded by the pipeline tells what happened to its request. */
  predicate TellsTruth(s: State, response: Response) {
    Truthful(s.log, response) && Matches(s, response)
  }

  predicate Fits(response: Response, i: nat, task: Task) {
    match response
    case Malformed(j) => j == i && task.parsed.None?
    case Failed(j) => j == i && StageOf(task.pc).Over?
    case _ => true
  }

  /** No response, and the parse result is never overwritten. */
  predicate Silent(socket: Socket, task: Task, e: Effect) {
    e.socket == socket && e.task.parsed == task.parsed
  }

  lemma EmitSilent(c: Config, socket: Socket, i: nat, task: Task, choice: Choice)
    ensures Silent(socket, task, Emit(c, socket, i, task, choice))
  {
  }

  lemma JudgementsSilent(c: Config, socket: Socket, i: nat, task: Task, choice: Choice)
    ensures Silent(socket, task, Judge(c, socket, i, task, choice)) && Silent(socket, task, Admit(c, socket, i, task, choice))
  {
  }

  lemma RunHookSilent(c: Config, socket: Socket, i: nat, task: Task, choice: Choice)
    requires task.pc.Running?
    ensures Silent(socket, task, RunHook(c, socket, i, task, choice))
  {
  }

  lemma WaitsSilent(c: Config, socket: Socket, i: nat, task: Task, choice: Choice)
    requires !task.pc.Returned?
    ensures Silent(socket, task, ResumeTask(c, socket, i, task, choice))
  {
    match task.pc
    case Running(_, _) => RunHookSilent(c, socket, i, task, choice);
    case Verifying => JudgementsSilent(c, socket, i, task, choice);
    case Trusting => JudgementsSilent(c, socket, i, task, choice);
    case _ =>
  }

  lemma AnswerFits(socket: Socket, i: nat, task: Task, response: Response, outcome: SendOutcome)
    requires Fits(response, i, task.(pc := Finished))
    ensures var e := Answer(socket, task, response, outcome);
            && e.task.parsed == task.parsed
            && forall r | r in e.socket.written :: r in socket.written || Fits(r, i, e.task)
  {
  }

  lemma ContinueAnswers(c: Config, socket: Socket, i: nat, task: Task, choice: Choice)
    requires task.pc.Returned?
    ensures var e := Continue(c, socket, i, task, choice);
            && e.task.parsed == task.parsed
            && forall r | r in e.socket.written :: r in socket.written || Fits(r, i, e.task)
  {
    match task.pc.hook
    case AfterParsing =>
      if task.parsed.None? {
        AnswerFits(socket, i, task, Malformed(i), choice.outcome);
      }
    case AfterSignature => AnswerFits(socket, i, task, BadSignature(i), choice.outcome);
    case AfterTrust => AnswerFits(socket, i, task, NotTrusted(i), choice.outcome);
    case BeforeArtifact => EmitSilent(c, socket, i, task, choice);
    case AfterArtifact => AnswerFits(socket, i, task, Success(i), choice.outcome);
    case BeforeError => EnterMove(c, SendOn(socket, Failed(i), choice.outcome).(destroyed := true), AfterError);
    case _ =>
  }

  predicate AllFit(s: State) {
    forall k | 0 <= k < |s.socket.written| :: Matches(s, s.socket.written[k])
  }

  lemma ApplyFits(s: State, i: nat, e: Effect)
    requires AllFit(s) && i < |s.tasks|
    requires e.task.parsed == s.tasks[i].parsed && (StageOf(s.tasks[i].pc).Over? ==> StageOf(e.task.pc).Over?)
    requires forall r | r in e.socket.written :: r in s.socket.written || Fits(r, i, e.task)
    ensures AllFit(Apply(s, i, e))
  {
    forall k | 0 <= k < |e.socket.written|
      ensures Matches(Apply(s, i, e), e.socket.written[k])
    {
      var r := e.socket.written[k];
      if r in s.socket.written {
        var m :| 0 <= m < |s.socket.written| && s.socket.written[m] == r;
      } else {
        assert Fits(r, i, e.task);
      }
    }
  }

  lemma StepFits(c: Config, s: State, event: Event)
    requires AllFit(s)
    ensures AllFit(Step(c, s, event))
  {
    if event.Resume? && event.task < |s.tasks| {
      var i := event.task;
      ResumeMove(c, s.socket, i, s.tasks[i], event.choice);
      if s.tasks[i].pc.Returned? {
        ContinueAnswers(c, s.socket, i, s.tasks[i], event.choice);
      } else {
        WaitsSilent(c, s.socket, i, s.tasks[i], event.choice);
      }
      ApplyFits(s, i, ResumeTask(c, s.socket, i, s.tasks[i], event.choice));
    }
  }

  lemma {:induction false} RunFits(c: Config, s: State, events: seq<Event>)
    requires AllFit(s)
    ensures AllFit(Run(c, s, events))
    decreases |events|
  {
    if events != [] {
      StepFits(c, s, events[0]);
      RunFits(c, Step(c, s, events[0]), events[1..]);
    }
  }

  /** At most one response is written on a socket, the socket is closed from then on, and a
      response worded by the pipeline tells the truth about its request. */
  lemma OneResponse(c: Config, events: seq<Event>)
    ensures var s := Run(c, OPEN, events);
            && |s.socket.written| <= 1
            && (s.socket.written != [] ==> s.socket.Closed() && TellsTruth(s, s.socket.written[0]))
            && AllHonest(s.log)
  {
    RunOk(c, OPEN, events);
    RunHonest(c, OPEN, events);
    RunFits(c, OPEN, events);
  }

  // ---------- every line comes to an end ----------

  function HooksLeft(hook: Hook): nat {
    match hook
    case BeforeParsing => 9
    case AfterParsing => 8
    case BeforeSignature => 7
    case AfterSignature => 6
    case BeforeTrust => 5
    case AfterTrust => 4
    case BeforeArtifact => 3
    case AfterArtifact => 2
    case BeforeError => 1
    case AfterError => 0
  }

  /** Resumptions left once a stage is done. */
  function Tail(c: Config, hook: Hook): (n: nat)
    ensures n > 0
    decreases HooksLeft(hook)
  {
    match hook
    case BeforeParsing => Count(c, AfterParsing) + Tail(c, AfterParsing) + 1
    case AfterParsing => Count(c, BeforeSignature) + Tail(c, BeforeSignature) + 1
    case BeforeSignature => Count(c, AfterSignature) + Tail(c, AfterSignature) + 2
    case AfterSignature => Count(c, BeforeTrust) + Tail(c, BeforeTrust) + 1
    case BeforeTrust => Count(c, AfterTrust) + Tail(c, AfterTrust) + 2
    case AfterTrust => Count(c, BeforeArtifact) + Tail(c, BeforeArtifact) + 1
    case BeforeArtifact => Count(c, AfterArtifact) + Tail(c, AfterArtifact) + 3
    case AfterArtifact => Count(c, BeforeError) + Tail(c, BeforeError) + 1
    case BeforeError => Count(c, AfterError) + Tail(c, AfterError) + 1
    case AfterError => 1
  }

  /** How often a task can still be resumed. */
  function Rank(c: Config, pc: Pc): nat {
    match pc
    case Running(hook, k) => Tail(c, hook) + if k < Count(c, hook) then Count(c, hook) - k else 1
    case Returned(hook) => Tail(c, hook)
    case Verifying => Count(c, AfterSignature) + Tail(c, AfterSignature) + 1
    case Trusting => Count(c, AfterTrust) + Tail(c, AfterTrust) + 1
    case Emitted => Count(c, AfterArtifact) + Tail(c, AfterArtifact) + 2
    case Forwarding => Count(c, AfterArtifact) + Tail(c, AfterArtifact) + 1
    case Finished => 0
    case Crashed => 0
  }

  /** One resumption for each handler of each stage, and fourteen for the awaits in between. */
  function Bound(c: Config): nat {
    Count(c, BeforeParsing) + Count(c, AfterParsing) + Count(c, BeforeSignature) + Count(c, AfterSignature)
    + Count(c, BeforeTrust) + Count(c, AfterTrust) + Count(c, BeforeArtifact) + Count(c, AfterArtifact)
    + Count(c, BeforeError) + Count(c, AfterError) + 14
  }

  lemma TailAboveError(c: Config, hook: Hook)
    requires !OnError(hook)
    ensures Tail(c, hook) > Count(c, BeforeError) + Tail(c, BeforeError)
    decreases HooksLeft(hook)
  {
    match hook
    case BeforeParsing => TailAboveError(c, AfterParsing);
    case AfterParsing => TailAboveError(c, BeforeSignature);
    case BeforeSignature => TailAboveError(c, AfterSignature);
    case AfterSignature => TailAboveError(c, BeforeTrust);
    case BeforeTrust => TailAboveError(c, AfterTrust);
    case AfterTrust => TailAboveError(c, BeforeArtifact);
    case BeforeArtifact => TailAboveError(c, AfterArtifact);
    case AfterArtifact =>
  }

  lemma EnterRank(c: Config, socket: Socket, hook: Hook)
    ensures Rank(c, EnterHook(c, socket, hook)) <= Count(c, hook) + Tail(c, hook)
  {
    var pc, n := EnterHook(c, socket, hook), Tail(c, hook);
    if pc == Returned(hook) {
      assert Rank(c, pc) == n;
    } else if pc == Running(hook, 0) {
      assert Rank(c, pc) == n + Count(c, hook);
    } else {
      assert Rank(c, pc) == 0;
    }
  }

  lemma BoundIsEnough(c: Config)
    ensures Count(c, BeforeParsing) + Tail(c, BeforeParsing) == Bound(c)
    ensures Count(c, BeforeError) + Tail(c, BeforeError) <= Bound(c)
  {
    assert Tail(c, BeforeError) == Count(c, AfterError) + 2;
    assert Tail(c, BeforeArtifact) == Count(c, AfterArtifact) + Count(c, BeforeError) + Tail(c, BeforeError) + 4;
    assert Tail(c, BeforeTrust) == Count(c, AfterTrust) + Count(c, BeforeArtifact) + Tail(c, BeforeArtifact) + 3;
    assert Tail(c, BeforeSignature) == Count(c, AfterSignature) + Count(c, BeforeTrust) + Tail(c, BeforeTrust) + 3;
  }

  lemma EmitPc(c: Config, socket: Socket, i: nat, task: Task, choice: Choice)
    ensures Emit(c, socket, i, task, choice).task.pc in [Emitted, Forwarding, EnterHook(c, socket, BeforeError)]
  {
  }

  lemma JudgementPc(c: Config, socket: Socket, i: nat, task: Task, choice: Choice)
    ensures Judge(c, socket, i, task, choice).task.pc in [EnterHook(c, socket, BeforeError), EnterHook(c, socket, AfterSignature)]
    ensures Admit(c, socket, i, task, choice).task.pc in [EnterHook(c, socket, BeforeError), EnterHook(c, socket, AfterTrust)]
  {
  }

  lemma EmitDescends(c: Config, socket: Socket, i: nat, task: Task, choice: Choice)
    ensures Rank(c, Emit(c, socket, i, task, choice).task.pc) < Tail(c, BeforeArtifact)
  {
    EmitPc(c, socket, i, task, choice);
    EnterRank(c, socket, BeforeError);
    TailAboveError(c, BeforeArtifact);
  }

  lemma ContinueDescends(c: Config, socket: Socket, i: nat, task: Task, choice: Choice)
    requires task.pc.Returned?
    ensures Rank(c, Continue(c, socket, i, task, choice).task.pc) < Rank(c, task.pc)
  {
    match task.pc.hook
    case BeforeParsing => EnterRank(c, socket, AfterParsing);
    case AfterParsing => EnterRank(c, socket, BeforeSignature);
    case BeforeSignature =>
    case AfterSignature => EnterRank(c, socket, BeforeTrust);
    case BeforeTrust =>
    case AfterTrust => EnterRank(c, socket, BeforeArtifact);
    case BeforeArtifact => EmitDescends(c, socket, i, task, choice);
    case AfterArtifact =>
    case BeforeError => EnterRank(c, SendOn(socket, Failed(i), choice.outcome).(destroyed := true), AfterError);
    case AfterError =>
  }

  lemma RunHookDescends(c: Config, socket: Socket, i: nat, task: Task, choice: Choice)
    requires task.pc.Running?
    ensures Rank(c, RunHook(c, socket, i, task, choice).task.pc) < Rank(c, task.pc)
  {
    if !OnError(task.pc.hook) {
      TailAboveError(c, task.pc.hook);
      EnterRank(c, socket, BeforeError);
    }
  }

  /** Each resumption of an unfinished task brings it nearer its end. */
  lemma ResumeDescends(c: Config, socket: Socket, i: nat, task: Task, choice: Choice)
    requires !Done(task)
    ensures Rank(c, ResumeTask(c, socket, i, task, choice).task.pc) < Rank(c, task.pc)
  {
    match task.pc
    case Running(_, _) => RunHookDescends(c, socket, i, task, choice);
    case Returned(_) => ContinueDescends(c, socket, i, task, choice);
    case Verifying =>
      JudgementPc(c, socket, i, task, choice);
      TailAboveError(c, AfterSignature);
      EnterRank(c, socket, AfterSignature);
      EnterRank(c, socket, BeforeError);
    case Trusting =>
      JudgementPc(c, socket, i, task, choice);
      TailAboveError(c, AfterTrust);
      EnterRank(c, socket, AfterTrust);
      EnterRank(c, socket, BeforeError);
    case Emitted =>
    case Forwarding =>
      TailAboveError(c, AfterArtifact);
      EnterRank(c, socket, AfterArtifact);
      EnterRank(c, socket, BeforeError);
  }

  function Resumptions(events: seq<Event>, i: nat): nat {
    if events == [] then 0
    else (if events[0].Resume? && events[0].task == i then 1 else 0) + Resumptions(events[1..], i)
  }

  lemma StepDescends(c: Config, s: State, event: Event, i: nat)
    requires i < |s.tasks|
    ensures i < |Step(c, s, event).tasks|
    ensures var task := Step(c, s, event).tasks[i];
            Rank(c, task.pc) + Resumptions([event], i) <= Rank(c, s.tasks[i].pc) || Done(task)
    ensures Rank(c, Step(c, s, event).tasks[i].pc) <= Rank(c, s.tasks[i].pc)
    ensures Done(s.tasks[i]) ==> Done(Step(c, s, event).tasks[i])
  {
    assert [event][1..] == [];
    assert Resumptions([event], i) == if event.Resume? && event.task == i then 1 else 0;
    if event.Resume? && event.task == i && !Done(s.tasks[i]) {
      ResumeDescends(c, s.socket, i, s.tasks[i], event.choice);
    }
  }

  lemma {:induction false} RunDescends(c: Config, s: State, events: seq<Event>, i: nat)
    requires i < |s.tasks|
    ensures i < |Run(c, s, events).tasks|
    ensures var task := Run(c, s, events).tasks[i];
            Rank(c, task.pc) + Resumptions(events, i) <= Rank(c, s.tasks[i].pc) || Done(task)
    ensures Done(s.tasks[i]) ==> Done(Run(c, s, events).tasks[i])
    decreases |events|
  {
    if events != [] {
      var event := events[0];
      assert [event][1..] == [];
      StepDescends(c, s, event, i);
      RunDescends(c, Step(c, s, event), events[1..], i);
    }
  }

  predicate RanksBounded(c: Config, s: State) {
    forall i | 0 <= i < |s.tasks| :: Rank(c, s.tasks[i].pc) <= Bound(c)
  }

  lemma {:induction false} RanksStayBounded(c: Config, s: State, events: seq<Event>)
    requires RanksBounded(c, s)
    ensures RanksBounded(c, Run(c, s, events))
    decreases |events|
  {
    if events != [] {
      var r := Step(c, s, events[0]);
      BoundIsEnough(c);
      EnterRank(c, s.socket, BeforeParsing);
      EnterRank(c, s.socket, BeforeError);
      forall i | 0 <= i < |r.tasks|
        ensures Rank(c, r.tasks[i].pc) <= Bound(c)
      {
        if i < |s.tasks| {
          StepDescends(c, s, events[0], i);
        }
      }
      RanksStayBounded(c, r, events[1..]);
    }
  }

  /** From any reachable state and through any interleaving, a line resumed as often as it has
      handlers and awaits is done, and then the socket is closed or an error hook threw. */
  lemma EveryLineIsAnswered(c: Config, before: seq<Event>, after: seq<Event>, i: nat)
    requires i < |Run(c, OPEN, before).tasks| && Resumptions(after, i) >= Bound(c)
    ensures var s := Run(c, Run(c, OPEN, before), after);
            && i < |s.tasks| && Done(s.tasks[i])
            && (s.socket.Closed() || HookThrew(i) in s.log)
  {
    var s := Run(c, OPEN, before);
    RanksStayBounded(c, OPEN, before);
    RunDescends(c, s, after, i);
    RunOk(c, OPEN, before);
    RunOk(c, s, after);
    var task := Run(c, s, after).tasks[i];
    assert Rank(c, s.tasks[i].pc) <= Bound(c);
    assert Rank(c, task.pc) == 0 ==> Done(task);
    assert TaskOk(Run(c, s, after).log, Run(c, s, after).socket.Closed(), i, task);
  }

  // ---------- a line on its own ----------

  /** A task resumed until it is done, with nothing else happening. */
  function Drive(c: Config, socket: Socket, i: nat, task: Task, choice: Choice): Effect
    decreases Rank(c, task.pc)
  {
    if Done(task) then Effect(task, socket, [])
    else
      ResumeDescends(c, socket, i, task, choice);
      var e := ResumeTask(c, socket, i, task, choice);
      var rest := Drive(c, e.socket, i, e.task, choice);
      rest.(notes := e.notes + rest.notes)
  }

  predicate Quiet(choice: Choice) {
    !choice.throws && choice.outcome.Sent?
  }

  /** How an undisturbed request ends: one response, and these deliveries. */
  predicate EndsWith(e: Effect, socket: Socket, i: nat, response: Response, deliveries: seq<Note>) {
    && e.task.pc.Finished?
    && e.socket.written == socket.written + [response]
    && DeliveriesOf(e.notes, i) == deliveries
  }

  lemma QuietHandler(c: Config, socket: Socket, i: nat, task: Task, choice: Choice)
    requires task.pc.Running? && Quiet(choice) && (socket.Closed() ==> OnError(task.pc.hook))
    ensures var hook, k := task.pc.hook, task.pc.k;
            ResumeTask(c, socket, i, task, choice)
              == Effect(task.(pc := if !socket.Closed() && k + 1 < Count(c, hook) then Running(hook, k + 1) else Returned(hook)),
                        socket, [])
  {
  }

  lemma {:induction false} RunningQuiet(c: Config, socket: Socket, i: nat, task: Task, choice: Choice)
    requires task.pc.Running? && task.pc.k < Count(c, task.pc.hook) && Quiet(choice)
    requires socket.Closed() ==> OnError(task.pc.hook)
    ensures Drive(c, socket, i, task, choice) == Drive(c, socket, i, task.(pc := Returned(task.pc.hook)), choice)
    decreases Count(c, task.pc.hook) - task.pc.k
  {
    var hook, k := task.pc.hook, task.pc.k;
    var next := if !socket.Closed() && k + 1 < Count(c, hook) then Running(hook, k + 1) else Returned(hook);
    QuietHandler(c, socket, i, task, choice);
    DriveQuietly(c, socket, i, task, choice);
    if next.Running? {
      RunningQuiet(c, socket, i, task.(pc := next), choice);
    }
  }

  lemma EnterQuiet(c: Config, socket: Socket, i: nat, task: Task, hook: Hook, choice: Choice)
    requires Quiet(choice) && (socket.Closed() ==> OnError(hook))
    ensures Drive(c, socket, i, task.(pc := EnterHook(c, socket, hook)), choice) == Drive(c, socket, i, task.(pc := Returned(hook)), choice)
  {
    var entered := task.(pc := EnterHook(c, socket, hook));
    if entered.pc.Running? {
      RunningQuiet(c, socket, i, entered, choice);
      assert entered.(pc := Returned(hook)) == task.(pc := Returned(hook));
    }
  }

  lemma DriveQuietly(c: Config, socket: Socket, i: nat, task: Task, choice: Choice)
    requires !Done(task) && ResumeTask(c, socket, i, task, choice).notes == []
    ensures var e := ResumeTask(c, socket, i, task, choice);
            Drive(c, socket, i, task, choice) == Drive(c, e.socket, i, e.task, choice)
  {
    var e := ResumeTask(c, socket, i, task, choice);
    var rest := Drive(c, e.socket, i, e.task, choice);
    assert rest.(notes := [] + rest.notes) == rest;
  }

  lemma QuietFailure(c: Config, socket: Socket, i: nat, task: Task, choice: Choice)
    requires !socket.Closed() && Quiet(choice)
    ensures EndsWith(Drive(c, socket, i, task.(pc := EnterHook(c, socket, BeforeError)), choice), socket, i, Failed(i), [])
    ensures Drive(c, socket, i, task.(pc := EnterHook(c, socket, BeforeError)), choice).socket.destroyed
  {
    EnterQuiet(c, socket, i, task, BeforeError, choice);
    var returned := task.(pc := Returned(BeforeError));
    var torn := SendOn(socket, Failed(i), Sent).(destroyed := true);
    DriveQuietly(c, socket, i, returned, choice);
    EnterQuiet(c, torn, i, returned, AfterError, choice);
    DriveQuietly(c, torn, i, returned.(pc := Returned(AfterError)), choice);
  }

  lemma QuietForwarding(c: Config, socket: Socket, i: nat, task: Task, choice: Choice)
    requires !socket.Closed() && Quiet(choice) && task.pc.Forwarding?
    ensures EndsWith(Drive(c, socket, i, task, choice), socket, i, Success(i), [])
  {
    DriveQuietly(c, socket, i, task, choice);
    EnterQuiet(c, socket, i, task, AfterArtifact, choice);
    DriveQuietly(c, socket, i, task.(pc := Returned(AfterArtifact)), choice);
  }

  /** Resuming once and then driving on: the deliveries add up. */
  lemma EndsAfter(c: Config, socket: Socket, i: nat, task: Task, choice: Choice, response: Response, later: seq<Note>)
    requires !Done(task) && ResumeTask(c, socket, i, task, choice).socket == socket
    requires EndsWith(Drive(c, socket, i, ResumeTask(c, socket, i, task, choice).task, choice), socket, i, response, later)
    ensures EndsWith(Drive(c, socket, i, task, choice), socket, i, response,
                     DeliveriesOf(ResumeTask(c, socket, i, task, choice).notes, i) + later)
  {
    var e := ResumeTask(c, socket, i, task, choice);
    DeliveriesJoin(e.notes, Drive(c, socket, i, e.task, choice).notes, i);
  }

  lemma QuietEmitted(c: Config, socket: Socket, i: nat, task: Task, choice: Choice)
    requires !socket.Closed() && Quiet(choice) && task.data.Some? && task.pc.Emitted?
    ensures EndsWith(Drive(c, socket, i, task, choice), socket, i, Success(i), Owed(c, i, task.data)[1..])
  {
    QuietForwarding(c, socket, i, task.(pc := Forwarding), choice);
    EndsAfter(c, socket, i, task, choice, Success(i), []);
    OwedDelivered(c, i, task.data.value);
  }

  lemma QuietDelivery(c: Config, socket: Socket, i: nat, task: Task, choice: Choice)
    requires !socket.Closed() && Quiet(choice) && task.data.Some? && task.pc == Returned(BeforeArtifact)
    ensures EndsWith(Drive(c, socket, i, task, choice), socket, i, Success(i), Owed(c, i, task.data))
  {
    var owed := Owed(c, i, task.data);
    var e := Emit(c, socket, i, task, choice);
    EmitShape(c, socket, i, task, choice);
    OwedDelivered(c, i, task.data.value);
    if task.data.value.Agent? {
      QuietEmitted(c, socket, i, e.task, choice);
      EndsAfter(c, socket, i, task, choice, Success(i), owed[1..]);
      assert owed[..1] + owed[1..] == owed;
    } else {
      QuietForwarding(c, socket, i, e.task, choice);
      EndsAfter(c, socket, i, task, choice, Success(i), []);
    }
  }

  lemma QuietTrust(c: Config, socket: Socket, i: nat, task: Task, choice: Choice)
    requires !socket.Closed() && Quiet(choice) && task.data.Some? && task.pc == Trusting
    ensures var trusted := VerifyTrust(choice.world, task.data.value);
            EndsWith(Drive(c, socket, i, task, choice), socket, i, if trusted then Success(i) else NotTrusted(i),
                     if trusted then Owed(c, i, task.data) else [])
  {
    var trusted := VerifyTrust(choice.world, task.data.value);
    var judged := task.(trusted := trusted, ctx := task.ctx.(isTrusted := trusted), pc := Returned(AfterTrust));
    var e := ResumeTask(c, socket, i, task, choice);
    assert e.notes == [TrustChecked(i, task.data.value, choice.world, trusted)];
    EnterQuiet(c, socket, i, judged, AfterTrust, choice);
    assert e.task == judged.(pc := EnterHook(c, socket, AfterTrust));
    DriveQuietly(c, socket, i, judged, choice);
    if trusted {
      EnterQuiet(c, socket, i, judged, BeforeArtifact, choice);
      QuietDelivery(c, socket, i, judged.(pc := Returned(BeforeArtifact)), choice);
    }
    NoteInFront(e.notes[0], Drive(c, socket, i, judged, choice), socket, i, if trusted then Success(i) else NotTrusted(i),
                if trusted then Owed(c, i, task.data) else []);
  }

  /** A note that is no delivery changes nothing in how a request ends. */
  lemma NoteInFront(note: Note, e: Effect, socket: Socket, i: nat, response: Response, deliveries: seq<Note>)
    requires EndsWith(e, socket, i, response, deliveries) && !note.Delivered?
    ensures EndsWith(e.(notes := [note] + e.notes), socket, i, response, deliveries)
  {
    assert ([note] + e.notes)[1..] == e.notes;
  }

  /** What the two judgements make of a request on its own. */
  function QuietResponse(w: World, data: Artifact, i: nat): Response {
    match VerifyArtifact(w, data)
    case None => Failed(i)
    case Some(Rejected(_)) => BadSignature(i)
    case Some(Accepted) => if VerifyTrust(w, data) then Success(i) else NotTrusted(i)
  }

  lemma QuietVerdict(c: Config, socket: Socket, i: nat, task: Task, choice: Choice)
    requires !socket.Closed() && Quiet(choice) && task.data.Some? && task.pc == Returned(AfterSignature)
    ensures var trusted := VerifyTrust(choice.world, task.data.value);
            var response := if !task.valid then BadSignature(i) else if trusted then Success(i) else NotTrusted(i);
            EndsWith(Drive(c, socket, i, task, choice), socket, i, response, if response.Success? then Owed(c, i, task.data) else [])
  {
    DriveQuietly(c, socket, i, task, choice);
    if task.valid {
      EnterQuiet(c, socket, i, task, BeforeTrust, choice);
      DriveQuietly(c, socket, i, task.(pc := Returned(BeforeTrust)), choice);
      QuietTrust(c, socket, i, task.(pc := Trusting), choice);
    }
  }

  lemma QuietJudgement(c: Config, socket: Socket, i: nat, task: Task, choice: Choice)
    requires !socket.Closed() && Quiet(choice) && task.data.Some? && task.pc == Verifying
    ensures var response := QuietResponse(choice.world, task.data.value, i);
            EndsWith(Drive(c, socket, i, task, choice), socket, i, response, if response.Success? then Owed(c, i, task.data) else [])
  {
    var verdict := VerifyArtifact(choice.world, task.data.value);
    if verdict.None? {
      DriveQuietly(c, socket, i, task, choice);
      QuietFailure(c, socket, i, task, choice);
    } else {
      var valid := verdict.value.Accepted?;
      var judged := task.(valid := valid, ctx := task.ctx.(isValid := valid), pc := Returned(AfterSignature));
      var e := ResumeTask(c, socket, i, task, choice);
      assert e.notes == [SigChecked(i, task.data.value, choice.world, valid)];
      assert e.task == judged.(pc := EnterHook(c, socket, AfterSignature));
      EnterQuiet(c, socket, i, judged, AfterSignature, choice);
      QuietVerdict(c, socket, i, judged, choice);
      var response := QuietResponse(choice.world, task.data.value, i);
      NoteInFront(e.notes[0], Drive(c, socket, i, judged, choice), socket, i, response,
                  if response.Success? then Owed(c, i, task.data) else []);
    }
  }

  function LineResponse(w: World, parsed: Option<Artifact>, i: nat): Response {
    if parsed.None? then Malformed(i) else QuietResponse(w, parsed.value, i)
  }

  lemma QuietParsed(c: Config, socket: Socket, i: nat, task: Task, choice: Choice)
    requires !socket.Closed() && Quiet(choice) && task.pc == Returned(AfterParsing)
    ensures var response := LineResponse(choice.world, task.parsed, i);
            EndsWith(Drive(c, socket, i, task, choice), socket, i, response, if response.Success? then Owed(c, i, task.parsed) else [])
  {
    DriveQuietly(c, socket, i, task, choice);
    if task.parsed.Some? {
      var read := task.(ctx := task.ctx.(data := task.parsed));
      EnterQuiet(c, socket, i, read, BeforeSignature, choice);
      var returned := read.(pc := Returned(BeforeSignature));
      DriveQuietly(c, socket, i, returned, choice);
      QuietJudgement(c, socket, i, returned.(pc := Verifying, data := task.parsed), choice);
    }
  }

  function Repeat(event: Event, n: nat): seq<Event> {
    if n == 0 then [] else [event] + Repeat(event, n - 1)
  }

  lemma RunRepeat(c: Config, s: State, event: Event, n: nat)
    requires n > 0
    ensures Run(c, s, Repeat(event, n)) == Run(c, Step(c, s, event), Repeat(event, n - 1))
  {
    var events := Repeat(event, n);
    assert events[0] == event && events[1..] == Repeat(event, n - 1);
  }

  /** A state with one task, as resuming leaves it. */
  function Only(e: Effect, log: seq<Note>): State {
    State(e.socket, [e.task], log + e.notes)
  }

  lemma StepOfOnly(c: Config, s: State, task: Task, choice: Choice, e: Effect)
    requires s.tasks == [task] && e == ResumeTask(c, s.socket, 0, task, choice)
    ensures Step(c, s, Resume(0, choice)) == Only(e, s.log)
  {
  }

  lemma DriveOfOnly(c: Config, socket: Socket, log: seq<Note>, task: Task, choice: Choice, e: Effect)
    requires e == ResumeTask(c, socket, 0, task, choice)
    ensures Only(Drive(c, socket, 0, task, choice), log) == Only(Drive(c, e.socket, 0, e.task, choice), log + e.notes)
  {
    var rest := Drive(c, e.socket, 0, e.task, choice);
    assert log + e.notes + rest.notes == log + (e.notes + rest.notes);
    assert Done(task) ==> [] + rest.notes == rest.notes;
  }

  lemma ResumeOnly(c: Config, s: State, task: Task, choice: Choice, n: nat) returns (e: Effect)
    requires s.tasks == [task] && n > 0
    ensures Run(c, s, Repeat(Resume(0, choice), n)) == Run(c, Only(e, s.log), Repeat(Resume(0, choice), n - 1))
    ensures Only(Drive(c, s.socket, 0, task, choice), s.log) == Only(Drive(c, e.socket, 0, e.task, choice), s.log + e.notes)
    ensures Rank(c, e.task.pc) <= if Rank(c, task.pc) == 0 then 0 else Rank(c, task.pc) - 1
  {
    e := ResumeTask(c, s.socket, 0, task, choice);
    RunRepeat(c, s, Resume(0, choice), n);
    StepOfOnly(c, s, task, choice, e);
    DriveOfOnly(c, s.socket, s.log, task, choice, e);
    if !Done(task) {
      ResumeDescends(c, s.socket, 0, task, choice);
    }
  }

  /** Resuming the only task often enough is driving it. */
  lemma {:induction false} RepeatedResume(c: Config, s: State, task: Task, choice: Choice, n: nat)
    requires s.tasks == [task] && Rank(c, task.pc) <= n
    ensures Run(c, s, Repeat(Resume(0, choice), n)) == Only(Drive(c, s.socket, 0, task, choice), s.log)
    decreases n
  {
    if n == 0 {
      assert s.log + [] == s.log;
    } else {
      var e := ResumeOnly(c, s, task, choice, n);
      RepeatedResume(c, Only(e, s.log), e.task, choice, n - 1);
    }
  }

  /** The pipeline alone, for every line and every number of handlers that only look on: one
      response that says what the judgements said, and the artifact delivered, once to the
      listeners and then once to the handler, exactly when it was judged valid and trusted. */
  lemma QuietLine(c: Config, parsed: Option<Artifact>, choice: Choice, n: nat)
    requires Quiet(choice) && n >= Bound(c)
    ensures var s := Run(c, OPEN, [Line(parsed)] + Repeat(Resume(0, choice), n));
            var response := LineResponse(choice.world, parsed, 0);
            && |s.tasks| == 1 && s.tasks[0].pc.Finished?
            && s.socket.written == [response]
            && DeliveriesOf(s.log, 0) == (if response.Success? then Owed(c, 0, parsed) else [])
            && response ==
                 if parsed.None? then Malformed(0)
                 else if PresentsUnreadable(choice.world, parsed.value) then Failed(0)
                 else if !Authentic(choice.world, parsed.value) then BadSignature(0)
                 else if !Entitled(choice.world, parsed.value) then NotTrusted(0)
                 else Success(0)
  {
    if parsed.Some? {
      VerifiedExactly(choice.world, parsed.value);
      TrustedExactly(choice.world, parsed.value);
    }
    var s := Step(c, OPEN, Line(parsed));
    var task := s.tasks[0];
    var events := [Line(parsed)] + Repeat(Resume(0, choice), n);
    assert events[1..] == Repeat(Resume(0, choice), n);
    BoundIsEnough(c);
    EnterRank(c, s.socket, BeforeParsing);
    RepeatedResume(c, s, task, choice, n);
    EnterQuiet(c, s.socket, 0, task, BeforeParsing, choice);
    var returned := task.(pc := Returned(BeforeParsing));
    DriveQuietly(c, s.socket, 0, returned, choice);
    EnterQuiet(c, s.socket, 0, returned, AfterParsing, choice);
    QuietParsed(c, s.socket, 0, returned.(pc := Returned(AfterParsing)), choice);
    var e := Drive(c, s.socket, 0, task, choice);
    assert s.log + e.notes == e.notes;
  }

  /** A timeout, a socket error or a failing awaited listener on its own: one error response, and
      the socket destroyed. */
  lemma QuietFault(c: Config, event: Event, choice: Choice, n: nat)
    requires (event.Fault? || event.ListenerThrew?) && Quiet(choice) && n >= Bound(c)
    ensures var s := Run(c, OPEN, [event] + Repeat(Resume(0, choice), n));
            && |s.tasks| == 1 && s.tasks[0].pc.Finished?
            && s.socket.written == [Failed(0)] && s.socket.destroyed
  {
    var s := Step(c, OPEN, event);
    var task := s.tasks[0];
    var events := [event] + Repeat(Resume(0, choice), n);
    assert events[1..] == Repeat(Resume(0, choice), n);
    BoundIsEnough(c);
    EnterRank(c, s.socket, BeforeError);
    RepeatedResume(c, s, task, choice, n);
    QuietFailure(c, s.socket, 0, task, choice);
  }

  /** That error hooks do not throw has to be assumed: one that does leaves the socket open for good. */
  lemma ThrowingErrorHookHangs(c: Config, failing: Choice, choice: Choice, n: nat)
    requires Count(c, BeforeError) > 0 && failing.throws
    ensures var s := Run(c, OPEN, [Fault] + ([Resume(0, failing)] + Repeat(Resume(0, choice), n)));
            s.socket == OPEN.socket && s.log == [HookThrew(0)]
  {
    var rest := Repeat(Resume(0, choice), n);
    var events := [Fault] + ([Resume(0, failing)] + rest);
    assert events[1..] == [Resume(0, failing)] + rest && events[1..][1..] == rest;
    var s := Step(c, Step(c, OPEN, Fault), Resume(0, failing));
    assert s.tasks[0].pc.Crashed? && s.log == [HookThrew(0)];
    RepeatedResume(c, s, s.tasks[0], choice, n);
    assert s.log + [] == s.log;
  }

  // ---------- the request context ----------

  /** The pipeline judges the artifact the context holds once the handlers before the signature
      check are done; what earlier handlers put there is replaced by the parsed one. */
  lemma ContextDataIsJudged(c: Config, s: State, i: nat, choice: Choice)
    requires i < |s.tasks|
    ensures s.tasks[i].pc == Returned(AfterParsing) && s.tasks[i].parsed.Some? ==>
              Step(c, s, Resume(i, choice)).tasks[i].ctx.data == s.tasks[i].parsed
    ensures s.tasks[i].pc == Returned(BeforeSignature) ==>
              Step(c, s, Resume(i, choice)).tasks[i].data == s.tasks[i].ctx.data
  {
  }

  /** Both judgements are told to the handlers through the context, and kept apart from it. */
  lemma JudgementsAreKept(c: Config, s: State, i: nat, choice: Choice)
    requires i < |s.tasks| && s.tasks[i].data.Some? && !choice.throws
    ensures var data, task := s.tasks[i].data.value, Step(c, s, Resume(i, choice)).tasks[i];
            && (s.tasks[i].pc.Verifying? && !PresentsUnreadable(choice.world, data) ==>
                  task.valid == task.ctx.isValid == Authentic(choice.world, data))
            && (s.tasks[i].pc.Trusting? ==> task.trusted == task.ctx.isTrusted == Entitled(choice.world, data))
  {
    VerifiedExactly(choice.world, s.tasks[i].data.value);
    TrustedExactly(choice.world, s.tasks[i].data.value);
  }

  // ---------- the classes ----------

  /** What one handler does to the socket, in the runs where nothing else touches it. */
  datatype Act = LooksOn | Responds(outcome: SendOutcome) | EndsSocket | DestroysSocket | Throws

  datatype HookResult = WentThrough | StoppedEarly | Threw

  class ServerSocket {
    var writableEnded: bool
    var destroyed: bool
    var written: seq<Response>

    ghost function View(): Socket
      reads this
    {
      Socket(writableEnded, destroyed, written)
    }

    constructor ()
      ensures View() == OPEN.socket
    {
      writableEnded, destroyed, written := false, false, [];
    }

    /** `sendBtpsResponse`: nothing on a closed socket, and the socket closed in any case. */
    method SendBtpsResponse(response: Response, outcome: SendOutcome)
      modifies this
      ensures View() == SendOn(old(View()), response, outcome)
      ensures View().Closed()
      ensures old(View().Closed()) ==> View() == old(View())
      ensures old(!View().Closed()) ==>
                && written == old(written) + (if outcome == Sent || outcome == EndThrew then [response] else [])
                && destroyed == (outcome != Sent)
    {
      if destroyed || writableEnded {
        return;
      }
      if outcome.SchemaRefused? {
        destroyed := true;
        return;
      }
      if !outcome.WriteThrew? {
        written := written + [response];
        if outcome.Sent? {
          writableEnded := true;
          return;
        }
      }
      destroyed := true;
    }

    /** The middle of `handleOnSocketError`: an error response if still possible, then teardown. */
    method TearDown(response: Response, outcome: SendOutcome)
      modifies this
      ensures View() == SendOn(old(View()), response, outcome).(destroyed := true)
    {
      SendBtpsResponse(response, outcome);
      if !destroyed {
        destroyed := true;
      }
    }

    /** `executeMiddleware` with no other activity on the socket: exactly the prefix up to the
        first handler that closes the socket or throws is run, and nothing on a closed socket. */
    method ExecuteMiddleware(middleware: seq<Act>) returns (ran: nat, result: HookResult)
      modifies this
      ensures ran <= |middleware|
      ensures old(View().Closed()) ==> ran == 0 && View() == old(View())
                                       && result == if middleware == [] then WentThrough else StoppedEarly
      ensures !old(View().Closed()) ==>
                && (forall j | 0 <= j < ran - 1 :: middleware[j].LooksOn?)
                && (ran < |middleware| ==> ran > 0 && !middleware[ran - 1].LooksOn?)
                && (if ran == 0 || middleware[ran - 1].LooksOn? then result.WentThrough? && View() == old(View())
                    else if middleware[ran - 1].Throws? then result.Threw? && View() == old(View())
                    else result.StoppedEarly? && View().Closed())
    {
      ran := 0;
      for k := 0 to |middleware|
        invariant ran == k && View() == old(View())
        invariant k > 0 ==> !View().Closed()
        invariant forall j | 0 <= j < k :: middleware[j].LooksOn?
      {
        if destroyed || writableEnded {
          return ran, StoppedEarly;
        }
        ran := k + 1;
        match middleware[k] {
          case LooksOn =>
          case Responds(outcome) => SendBtpsResponse(Custom, outcome);
          case EndsSocket => writableEnded := true;
          case DestroysSocket => destroyed := true;
          case Throws => return ran, Threw;
        }
        if destroyed || writableEnded {
          return ran, StoppedEarly;
        }
      }
      result := WentThrough;
    }
  }

  /** `handleConnection`: the socket, the activations started on it, and what they did. */
  class ServerConnection {
    const config: Config
    const socket: ServerSocket
    var tasks: seq<Task>
    var log: seq<Note>

    ghost function View(): State
      reads this, socket
    {
      State(socket.View(), tasks, log)
    }

    constructor (config: Config)
      ensures this.config == config && View() == OPEN && fresh(socket)
    {
      this.config := config;
      socket := new ServerSocket();
      tasks, log := [], [];
    }

    method EnterStage(i: nat, hook: Hook)
      requires i < |tasks|
      modifies this
      ensures View() == Apply(old(View()), i, Enter(config, old(View()).socket, old(tasks)[i], hook))
    {
      var pc := Returned(hook);
      if Count(config, hook) > 0 {
        if socket.destroyed || socket.writableEnded {
          pc := if OnError(hook) then Returned(hook) else Finished;
        } else {
          pc := Running(hook, 0);
        }
      }
      tasks := tasks[i := tasks[i].(pc := pc)];
      assert old(log) + [] == old(log);
    }

    /** A line of data; a blank one never gets here. */
    method OnLine(parsed: Option<Artifact>)
      modifies this
      ensures View() == Step(config, old(View()), Line(parsed))
    {
      tasks := tasks + [Task(Returned(BeforeParsing), parsed, NOTHING, None, false, false)];
      EnterStage(|tasks| - 1, BeforeParsing);
    }

    /** A timeout, a socket or stream error. */
    method OnFault()
      modifies this
      ensures View() == Step(config, old(View()), Fault)
    {
      tasks := tasks + [Task(Returned(BeforeError), None, NOTHING, None, false, false)];
      EnterStage(|tasks| - 1, BeforeError);
    }

    /** The core signature check of the pipeline has come back. */
    method AfterVerifySignature(i: nat, choice: Choice)
      requires i < |tasks| && tasks[i].pc.Verifying?
      modifies this
      ensures View() == Apply(old(View()), i, Judge(config, old(View()).socket, i, old(tasks)[i], choice))
    {
      var task := tasks[i];
      if task.data.None? || choice.throws || VerifyArtifact(choice.world, task.data.value).None? {
        EnterStage(i, BeforeError);
        return;
      }
      var isValid := VerifyArtifact(choice.world, task.data.value).value.Accepted?;
      log := log + [SigChecked(i, task.data.value, choice.world, isValid)];
      tasks := tasks[i := task.(valid := isValid, ctx := task.ctx.(isValid := isValid))];
      EnterStage(i, AfterSignature);
    }

    /** The core trust check of the pipeline has come back. */
    method AfterVerifyTrust(i: nat, choice: Choice)
      requires i < |tasks| && tasks[i].pc.Trusting?
      modifies this
      ensures View() == Apply(old(View()), i, Admit(config, old(View()).socket, i, old(tasks)[i], choice))
    {
      var task := tasks[i];
      if task.data.None? || choice.throws {
        EnterStage(i, BeforeError);
        return;
      }
      var isTrusted := VerifyTrust(choice.world, task.data.value);
      log := log + [TrustChecked(i, task.data.value, choice.world, isTrusted)];
      tasks := tasks[i := task.(trusted := isTrusted, ctx := task.ctx.(isTrusted := isTrusted))];
      EnterStage(i, AfterTrust);
    }

    /** `processMessage` as far as its first await: listeners first, the handler next unless the
        listeners have to be waited for. */
    method ProcessMessage(i: nat, choice: Choice)
      requires i < |tasks| && tasks[i].data.Some?
      modifies this
      ensures View() == Apply(old(View()), i, Emit(config, old(View()).socket, i, old(tasks)[i], choice))
      ensures |log| > |old(log)| && log[|old(log)|] == Delivered(i, old(tasks)[i].data.value, Listeners)
    {
      var data := tasks[i].data.value;
      log := log + [Delivered(i, data, Listeners)];
      if choice.throws && !(data.Agent? && data.respondNow) {
        EnterStage(i, BeforeError);
      } else if data.Agent? {
        tasks := tasks[i := tasks[i].(pc := Emitted)];
      } else {
        if config.forwards {
          log := log + [Delivered(i, data, HandlerFn)];
        }
        tasks := tasks[i := tasks[i].(pc := Forwarding)];
      }
    }

    /** A handler has come back, or thrown. */
    method AfterHandler(i: nat, choice: Choice)
      requires i < |tasks| && tasks[i].pc.Running?
      modifies this
      ensures View() == Apply(old(View()), i, RunHook(config, old(View()).socket, i, old(tasks)[i], choice))
    {
      var hook, k := tasks[i].pc.hook, tasks[i].pc.k;
      assert log + [] == log;
      if choice.throws {
        if OnError(hook) {
          log := log + [HookThrew(i)];
          tasks := tasks[i := tasks[i].(pc := Crashed)];
        } else {
          EnterStage(i, BeforeError);
        }
      } else if socket.destroyed || socket.writableEnded {
        tasks := tasks[i := tasks[i].(pc := if OnError(hook) then Returned(hook) else Finished)];
      } else if k + 1 < Count(config, hook) {
        tasks := tasks[i := tasks[i].(pc := Running(hook, k + 1))];
      } else {
        tasks := tasks[i := tasks[i].(pc := Returned(hook))];
      }
    }

    /** The error path, once its first stage is through. */
    method AfterBeforeError(i: nat, choice: Choice)
      requires i < |tasks| && tasks[i].pc == Returned(BeforeError)
      modifies this, socket
      ensures View() == Apply(old(View()), i, Continue(config, old(View()).socket, i, old(tasks)[i], choice))
    {
      socket.TearDown(Failed(i), choice.outcome);
      EnterStage(i, AfterError);
    }

    /** The three places where the pipeline itself answers. */
    method Respond(i: nat, response: Response, outcome: SendOutcome)
      requires i < |tasks|
      modifies this, socket
      ensures View() == Apply(old(View()), i, Answer(old(View()).socket, old(tasks)[i], response, outcome))
      ensures tasks[i].pc.Finished? && View().socket.Closed()
    {
      socket.SendBtpsResponse(response, outcome);
      tasks := tasks[i := tasks[i].(pc := Finished)];
      assert old(log) + [] == old(log);
    }

    /** `handleConnection` and `executeRequestPipeline` between two stages. */
    method AfterStage(i: nat, choice: Choice)
      requires i < |tasks| && tasks[i].pc.Returned?
      modifies this, socket
      ensures View() == Apply(old(View()), i, Continue(config, old(View()).socket, i, old(tasks)[i], choice))
    {
      var task := tasks[i];
      assert log + [] == log;
      match task.pc.hook {
        case BeforeParsing => EnterStage(i, AfterParsing);
        case AfterParsing =>
          if task.parsed.None? {
            Respond(i, Malformed(i), choice.outcome);
          } else {
            tasks := tasks[i := task.(ctx := task.ctx.(data := task.parsed))];
            EnterStage(i, BeforeSignature);
          }
        case BeforeSignature => tasks := tasks[i := task.(pc := Verifying, data := task.ctx.data)];
        case AfterSignature =>
          if !task.valid {
            Respond(i, BadSignature(i), choice.outcome);
          } else {
            EnterStage(i, BeforeTrust);
          }
        case BeforeTrust => tasks := tasks[i := task.(pc := Trusting)];
        case AfterTrust =>
          if !task.trusted {
            Respond(i, NotTrusted(i), choice.outcome);
          } else {
            EnterStage(i, BeforeArtifact);
          }
        case BeforeArtifact =>
          if task.data.None? {
            EnterStage(i, BeforeError);
          } else {
            ProcessMessage(i, choice);
          }
        case AfterArtifact => Respond(i, Success(i), choice.outcome);
        case BeforeError => AfterBeforeError(i, choice);
        case AfterError => tasks := tasks[i := task.(pc := Finished)];
      }
    }

    /** The awaited listeners are done: stop on a closed socket, else forward. */
    method AfterListeners(i: nat, choice: Choice)
      requires i < |tasks| && tasks[i].pc.Emitted?
      modifies this
      ensures View() == Apply(old(View()), i, ResumeTask(config, old(View()).socket, i, old(tasks)[i], choice))
    {
      assert log + [] == log;
      if socket.destroyed || socket.writableEnded {
        tasks := tasks[i := tasks[i].(pc := Finished)];
      } else {
        if config.forwards && tasks[i].data.Some? {
          log := log + [Delivered(i, tasks[i].data.value, HandlerFn)];
        }
        tasks := tasks[i := tasks[i].(pc := Forwarding)];
      }
    }

    /** Whatever a request waits for has come: one step of it, up to its next await. */
    method Advance(i: nat, choice: Choice)
      requires i < |tasks|
      modifies this, socket
      ensures View() == Step(config, old(View()), Resume(i, choice))
    {
      assert log + [] == log;
      match tasks[i].pc {
        case Running(_, _) => AfterHandler(i, choice);
        case Returned(_) => AfterStage(i, choice);
        case Verifying => AfterVerifySignature(i, choice);
        case Trusting => AfterVerifyTrust(i, choice);
        case Emitted => AfterListeners(i, choice);
        case Forwarding =>
          if choice.throws && config.forwards {
            EnterStage(i, BeforeError);
          } else {
            EnterStage(i, AfterArtifact);
          }
        case Finished =>
        case Crashed =>
      }
    }

    /** Any event on the connection; what holds of every run holds of what this leaves. */
    method Handle(event: Event)
      modifies this, socket
      ensures View() == Step(config, old(View()), event)
      ensures old(StateOk(View())) ==> StateOk(View())
    {
      if StateOk(View()) {
        StepOk(config, View(), event);
      }
      match event {
        case Line(parsed) => OnLine(parsed);
        case Fault => OnFault();
        case ListenerThrew => OnFault();
        case Send(outcome) => socket.SendBtpsResponse(Custom, outcome);
        case End => socket.writableEnded := true;
        case Destroy => socket.destroyed := true;
        case Overwrite(i, ctx) =>
          if i < |tasks| {
            tasks := tasks[i := tasks[i].(ctx := ctx)];
          }
        case Resume(i, choice) =>
          if i < |tasks| {
            Advance(i, choice);
          }
      }
    }
  }
}
