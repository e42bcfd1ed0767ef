/** The session file: what a run leaves behind and what a later run may take up. */
module Session {
  import opened Wrappers
  import opened Text
  import opened Messages
  import opened TaskState

  const PROTOCOL_VERSION: nat := 1

  datatype Limits = Limits(
    wallSeconds: nat, maxModelRequests: nat, maxOutputTokens: nat, maxContextTokens: nat, maxToolOutputBytes: nat)

  datatype Task = Task(taskId: Text, digest: Text, instruction: Text, limits: Limits)

  datatype SessionState = SessionState(
    protocol: nat,
    taskId: Text,
    taskDigest: Text,
    instruction: Text,
    state: TaskState,
    usage: Usage,
    turnsCompleted: nat,
    toolCalls: nat,
    model: Text,
    provider: Text,
    lastSummary: Option<Text>,
    completed: bool)

  /** What the path may hold: nothing, bytes that cannot be read, bytes that are not a session
      document, or a document. */
  datatype File = Missing | Unreadable | Malformed | Document(session: SessionState)

  datatype LoadResult = ReadError | Loaded(resumable: Option<SessionState>)

  function NewSession(task: Task, model: Text, provider: Text): SessionState
  {
    SessionState(PROTOCOL_VERSION, task.taskId, task.digest, task.instruction, NewState(task.instruction),
                 Usage(0, 0, 0, 0), 0, 0, model, provider, None, false)
  }

  function Load(file: File): LoadResult
  {
    match file
    case Missing => Loaded(None)
    case Unreadable => ReadError
    case Malformed => Loaded(None)
    case Document(s) =>
      if s.protocol != PROTOCOL_VERSION then Loaded(None)
      else if s.completed then Loaded(None)
      else Loaded(Some(s))
  }

  /** What the command line hands the agent under `--resume`: a load failure resumes nothing. */
  function Resumable(file: File): Option<SessionState>
  {
    match Load(file)
    case ReadError => None
    case Loaded(s) => s
  }

  predicate Matches(s: SessionState, task: Task) { s.taskDigest == task.digest && s.taskId == task.taskId }

  /** The session an agent starts from. */
  function Adopted(task: Task, resumed: Option<SessionState>, model: Text, provider: Text): SessionState
  {
    if resumed.Some? && Matches(resumed.value, task) then resumed.value else NewSession(task, model, provider)
  }

  /** The structured state an agent starts from. */
  function StartState(task: Task, resumed: Option<SessionState>): TaskState
  {
    if resumed.Some? && Matches(resumed.value, task) then resumed.value.state else NewState(task.instruction)
  }

  /** What a run of the same task makes of its own session document. */
  lemma {:induction false} TakenUp(task: Task, s: SessionState, model: Text, provider: Text)
    requires s.protocol == PROTOCOL_VERSION && Matches(s, task)
    ensures var resumed := Resumable(Document(s));
            && StartState(task, resumed) == (if s.completed then NewState(task.instruction) else s.state)
            && (Adopted(task, resumed, model, provider) == s <==> !s.completed)
  {
  }

  /** A run takes up a saved state exactly when the document is current, unfinished and belongs
      to the same task by both id and digest; any other file, however damaged, starts afresh. */
  lemma {:induction false} ResumesExactlyOwnUnfinishedWork(task: Task, file: File, model: Text, provider: Text)
    ensures var resumed := Resumable(file);
            && (&& file.Document? && file.session.protocol == PROTOCOL_VERSION && !file.session.completed
                && file.session.taskId == task.taskId && file.session.taskDigest == task.digest
                ==> Adopted(task, resumed, model, provider) == file.session && StartState(task, resumed) == file.session.state)
            && (!(&& file.Document? && file.session.protocol == PROTOCOL_VERSION && !file.session.completed
                  && file.session.taskId == task.taskId && file.session.taskDigest == task.digest)
                ==> && Adopted(task, resumed, model, provider) == NewSession(task, model, provider)
                    && StartState(task, resumed) == NewState(task.instruction))
    ensures var s := Adopted(task, Resumable(file), model, provider);
            s.protocol == PROTOCOL_VERSION && !s.completed && Matches(s, task)
  {
  }
}
