/**
 A whole migration as a state machine.

 The steps are those of the concurrent parties: the server committing changes
 to the original table, the binlog reader, the dispatcher, the worker that
 applies batches and copies chunks, the checkpoint writer, and the process
 itself, which may crash and resume. A run is any interleaving of them.

 Log positions count row changes of the original table. A transaction is named
 by the position it ends at; that position is also its binlog coordinate.
 */
module Protocol {
  import opened Wrappers
  import opened Keys
  import opened Replay
  import opened Batching
  import opened Flow

  type Row = map<string, Value>
  type Table = map<Key, Row>
  type Change = Event<Key, Row>

  /** `ends` are the transaction ends, `challenges` the log position each sentinel challenge was written at. */
  datatype Server = Server(init: Table, log: seq<Change>, ends: set<nat>, challenges: map<nat, nat>)

  /**
   `next` is the position the reader reads next, `since` the last transaction
   end it has passed or connected at, `lastTrx` the reader's LastTrxCoords,
   `hasRows` its transactionHasRows, and `initial` the streamer's initial
   coordinates. `waiting` holds sentinels dispatched to a goroutine that has yet to
   enqueue them. `listening` says that the listener for the original's rows is
   registered; rows read before that are not even decoded.
   */
  datatype Stream = Stream(initial: nat, next: nat, since: nat, lastTrx: Option<nat>, hasRows: bool,
                           channel: seq<Task>, dispatching: bool, listening: bool, waiting: set<nat>)

  /** What the worker has taken from the queue: rows to commit, or what remains after committing them. */
  datatype Hand = Idle | Holding(tasks: seq<Task>, rebuilt: bool) | Settling(tasks: seq<Task>)

  /**
   `applied` is the position the replay has come to, `acked` is
   AppliedTransactionCoordinates, `ran` the sentinels run. The rest records the
   history: the last transaction handled (`floor`), where capture began, how far
   the replay ever came (`high`), and which changes were committed on the ghost.
   */
  datatype Worker = Worker(queue: seq<Task>, hand: Hand, applied: nat, acked: Option<nat>, ran: set<nat>,
                           floor: nat, captured: nat, high: nat, committed: set<nat>)

  datatype Range = NoRows | Bounds(min: Key, max: Key)

  /** `copiedTo` is the end of the last copied chunk. */
  datatype Copy = Copy(range: Option<Range>, copiedTo: Option<Key>, finished: bool)

  datatype Checkpoint = Checkpoint(coord: nat, copiedTo: Key)

  /**
   `fellBack` records a reconnect behind a transaction already read; `lost`
   records one of the three hazards: a resume after such a reconnect, a row read
   after a resume while nobody listened, and a batch committed on a retry whose
   statements, built again, did something else to the ghost.
   */
  datatype State = State(server: Server, stream: Stream, worker: Worker, copy: Copy, shadow: Table,
                         sampled: Option<Checkpoint>, stored: Option<Checkpoint>,
                         resumed: bool, fellBack: bool, lost: bool)

  datatype ServerStep =
    | CommitChanges(changes: seq<Change>)
    | WriteChallenge(id: nat)

  datatype StreamStep =
    | ReadRow
    | ReadXid
    | ReadChallenge(id: nat)
    | Reconnect
    | Listen
    | Dispatch
    | DispatchFail
    | EnqueueSentinel(id: nat)

  datatype WorkerStep =
    | Take(available: nat, size: nat)
    | CommitBatch
    | FailBatch(built: bool)
    // The commit takes effect, but its call fails.
    | CommitUnseen
    | Settle

  datatype CopyStep =
    | ReadRange(range: Range)
    // `again` says that the chunk includes its start, as the first one after a resume may.
    | CopyChunk(end: Key, again: bool)
    // The insert takes effect, but its call fails.
    | CopyUnseen(end: Key, again: bool)
    // `moved` is the end that a failed attempt had set before nothing was left to copy.
    | FinishCopy(moved: Option<Key>)

  datatype ProcessStep =
    | SampleCheckpoint
    | StoreCheckpoint
    | Resume

  datatype Step =
    | ByServer(server: ServerStep)
    | ByStream(stream: StreamStep)
    | ByWorker(worker: WorkerStep)
    | ByCopy(copy: CopyStep)
    | ByProcess(process: ProcessStep)

  /** A migration that has created an empty ghost table and started streaming. */
  function Start(init: Table): State {
    State(
      Server(init, [], {}, map[]),
      Stream(0, 0, 0, None, false, [], true, false, {}),
      Worker([], Idle, 0, None, {}, 0, 0, 0, {}),
      Copy(None, None, false), map[], None, None, false, false, false)
  }

  // ----- views of a state

  function Current(server: Server): Table {
    At(server.init, server.log, |server.log|)
  }

  function InHand(hand: Hand): seq<Task> {
    if hand.Idle? then [] else hand.tasks
  }

  function InWork(w: Worker): seq<Task> {
    InHand(w.hand) + w.queue
  }

  /** The tasks on their way to the worker; a dead dispatcher delivers nothing any more. */
  function InFlight(s: State): seq<Task> {
    InWork(s.worker) + if s.stream.dispatching then s.stream.channel else []
  }

  predicate UpTo(end: Option<Key>, k: Key) {
    end.Some? && Leq(k, end.value)
  }

  predicate OutOf(range: Option<Range>, k: Key) {
    range.Some? && (range.value.NoRows? || Less(k, range.value.min) || Less(range.value.max, k))
  }

  /** The row copy need not, or no longer, see to `k`. */
  predicate Covered(c: Copy, k: Key) {
    c.finished || UpTo(c.copiedTo, k) || OutOf(c.range, k)
  }

  function EndOf(c: Option<Checkpoint>): Option<Key> {
    if c.Some? then Some(c.value.copiedTo) else None
  }

  /** `k` is covered, also from the point of view of a checkpoint. */
  predicate Secured(s: State, k: Key) {
    Covered(s.copy, k) || UpTo(EndOf(s.sampled), k) || UpTo(EndOf(s.stored), k)
  }

  /** Where the next chunk starts, and whether that key belongs to it. */
  function ChunkStart(c: Copy): (Key, bool)
    requires c.range.Some? && c.range.value.Bounds?
  {
    if c.copiedTo.Some? then (c.copiedTo.value, false) else (c.range.value.min, true)
  }

  /** `insert ignore ... select` of the rows of `t` in the chunk. */
  function CopyRows<V>(g: map<Key, V>, t: map<Key, V>, start: Key, inclusive: bool, end: Key): map<Key, V> {
    g + map k | k in t && k !in g && Between(start, inclusive, end, k) :: t[k]
  }

  predicate IsRange(t: Table, range: Range) {
    if range.NoRows? then t == map[]
    else forall k | k in t :: Leq(range.min, k) && Leq(k, range.max)
  }

  predicate InLog(tasks: seq<Task>, n: nat) {
    forall i | 0 <= i < |tasks| :: tasks[i].Dml? ==> tasks[i].pos < n
  }

  function ApplyTasks(g: Table, log: seq<Change>, tasks: seq<Task>, rebuilt: bool): Table
    requires InLog(tasks, |log|)
    decreases |tasks|
  {
    if tasks == [] then g
    else if tasks[0].Dml? then
      assert tasks[0].pos < |log|;
      ApplyTasks(ApplyBuilt(g, log[tasks[0].pos], rebuilt), log, tasks[1..], rebuilt)
    else ApplyTasks(g, log, tasks[1..], rebuilt)
  }

  predicate MovesAKey(log: seq<Change>, tasks: seq<Task>)
    requires InLog(tasks, |log|)
  {
    exists i :: 0 <= i < |tasks| && tasks[i].Dml? && MovesKey(log[tasks[i].pos])
  }

  // ----- the steps

  ghost predicate ServerEnabled(s: State, step: ServerStep) {
    match step
    case CommitChanges(changes) => changes != [] && ValidLog(s.server.init, s.server.log + changes)
    case WriteChallenge(id) => s.stream.listening && id !in s.server.challenges
  }

  predicate StreamEnabled(s: State, step: StreamStep) {
    var server, stream := s.server, s.stream;
    match step
    case ReadRow => stream.next < |server.log| && (stream.next in server.ends ==> stream.next <= stream.since)
    case ReadXid => stream.next in server.ends && stream.since < stream.next
    // A challenge is its own transaction, read after the end of every earlier one.
    case ReadChallenge(id) => id in server.challenges && server.challenges[id] <= stream.since
    case Reconnect => true
    case Listen => !stream.listening
    case Dispatch => stream.dispatching && stream.channel != []
    case DispatchFail => stream.dispatching && stream.channel != []
    case EnqueueSentinel(id) => id in stream.waiting
  }

  predicate WorkerEnabled(s: State, step: WorkerStep) {
    var w := s.worker;
    match step
    case Take(available, size) => w.hand.Idle? && available < |w.queue| && size >= 1
    case CommitBatch => w.hand.Holding? && InLog(w.hand.tasks, |s.server.log|)
    case FailBatch(_) => w.hand.Holding?
    case CommitUnseen => w.hand.Holding? && InLog(w.hand.tasks, |s.server.log|)
    case Settle => w.hand.Settling?
  }

  predicate CopyEnabled(s: State, step: CopyStep) {
    var c := s.copy;
    match step
    case ReadRange(range) => s.stream.listening && c.range.None? && IsRange(Current(s.server), range)
    case CopyChunk(_, _) => s.worker.hand.Idle? && c.range.Some? && c.range.value.Bounds? && !c.finished
    case CopyUnseen(_, _) => s.worker.hand.Idle? && c.range.Some? && c.range.value.Bounds? && !c.finished
    case FinishCopy(moved) =>
      && c.range.Some?
      && (c.range.value.Bounds? ==>
            var (start, inclusive) := ChunkStart(c);
            && (moved.Some? ==> Between(start, inclusive, c.range.value.max, moved.value))
            && forall k | k in Current(s.server) :: !Between(start, inclusive, c.range.value.max, k))
      && (c.range.value.NoRows? ==> moved.None?)
  }

  predicate ProcessEnabled(s: State, step: ProcessStep) {
    match step
    case SampleCheckpoint => s.copy.copiedTo.Some?
    case StoreCheckpoint => s.sampled.Some? && s.worker.acked.Some? && s.sampled.value.coord <= s.worker.acked.value
    case Resume => s.stored.Some?
  }

  ghost predicate Enabled(s: State, step: Step) {
    match step
    case ByServer(x) => ServerEnabled(s, x)
    case ByStream(x) => StreamEnabled(s, x)
    case ByWorker(x) => WorkerEnabled(s, x)
    case ByCopy(x) => CopyEnabled(s, x)
    case ByProcess(x) => ProcessEnabled(s, x)
  }

  function Target(stream: Stream): nat {
    if stream.lastTrx.Some? then stream.lastTrx.value else stream.initial
  }

  /** Dispatching the head of the channel. */
  function DoDispatch(s: State): State
    requires s.stream.dispatching && s.stream.channel != []
  {
    var task, w := s.stream.channel[0], s.worker;
    var s' := s.(stream := s.stream.(channel := s.stream.channel[1..]));
    if task.Write? then
      s'.(stream := s'.stream.(waiting := s.stream.waiting + {task.id}))
    else if s.stream.listening then
      s'.(worker := w.(queue := w.queue + [task]))
    else
      s'.(lost := true)
  }

  /**
   Reading a row. Without a listener the row is not decoded (Streamer.ShouldDecodeRowsEvent)
   and nothing is sent for it (Reader.UndecodedIsSilent): before the range is read that
   only moves the start of the capture, after a resume the row is lost.
   */
  function DoReadRow(s: State): State {
    var stream, w := s.stream, s.worker;
    var read := stream.(next := stream.next + 1);
    if stream.listening then
      s.(stream := read.(channel := stream.channel + [Dml(stream.next)], hasRows := true))
    else if s.resumed then
      s.(stream := read, lost := true)
    else
      var high := Max(w.high, stream.next + 1);
      s.(stream := read, worker := w.(applied := stream.next + 1, captured := high, high := high))
  }

  /** Reading the end of a transaction: its marker is sent if a row of it was. */
  function DoReadXid(s: State): State {
    var stream := s.stream;
    var read := stream.(since := stream.next, lastTrx := Some(stream.next), hasRows := false);
    if stream.hasRows then
      s.(stream := read.(channel := stream.channel + [Complete(stream.next)]))
    else
      s.(stream := read, worker := s.worker.(floor := stream.next))
  }

  function DoTake(s: State, available: nat, size: nat): State
    requires available < |s.worker.queue|
  {
    var w := s.worker;
    var tasks := Batch(w.queue, available, size);
    var hand := if tasks[0].Dml? then Holding(tasks, false) else Settling(tasks);
    s.(worker := w.(hand := hand, queue := w.queue[|tasks|..]))
  }

  /** The statements of the batch in hand are built for the first time, or do to the ghost what these would do. */
  predicate SameRebuilt(s: State)
    requires s.worker.hand.Holding? && InLog(s.worker.hand.tasks, |s.server.log|)
  {
    s.worker.hand.rebuilt ==>
      ApplyTasks(s.shadow, s.server.log, s.worker.hand.tasks, true) ==
      ApplyTasks(s.shadow, s.server.log, s.worker.hand.tasks, false)
  }

  function DoCommitBatch(s: State): State
    requires s.worker.hand.Holding? && InLog(s.worker.hand.tasks, |s.server.log|)
  {
    var w := s.worker;
    var tasks, rebuilt := w.hand.tasks, w.hand.rebuilt;
    s.(shadow := ApplyTasks(s.shadow, s.server.log, tasks, rebuilt),
       lost := s.lost || !SameRebuilt(s),
       worker := w.(hand := Settling(Leftover(tasks)), applied := End(tasks, w.applied),
                    high := HighEnd(tasks, w.high), committed := w.committed + set p | p in Rows(tasks)))
  }

  /** The rows are on the ghost, and the batch is still in hand. */
  function DoCommitUnseen(s: State): State
    requires s.worker.hand.Holding? && InLog(s.worker.hand.tasks, |s.server.log|)
  {
    var w := s.worker;
    var tasks, rebuilt := w.hand.tasks, w.hand.rebuilt;
    s.(shadow := ApplyTasks(s.shadow, s.server.log, tasks, rebuilt),
       lost := s.lost || !SameRebuilt(s), worker := w.(hand := Holding(tasks, true)))
  }

  function DoSettle(s: State): State
    requires s.worker.hand.Settling?
  {
    var w := s.worker;
    var marker := LastMarker(w.hand.tasks);
    s.(worker := w.(hand := Idle, acked := if marker.Some? then marker else w.acked,
                    floor := FloorEnd(w.hand.tasks, w.floor), ran := w.ran + set id | id in Writes(w.hand.tasks)))
  }

  /** A resumed process starts to stream before it registers the listener. */
  function DoResume(s: State): State
    requires s.stored.Some?
  {
    var c := s.stored.value;
    s.(stream := Stream(c.coord, c.coord, c.coord, None, false, [], true, false, {}),
       worker := s.worker.(queue := [], hand := Idle, applied := c.coord, acked := None, ran := {}, floor := c.coord),
       copy := Copy(None, Some(c.copiedTo), false), sampled := None,
       resumed := true, fellBack := false, lost := s.lost || s.fellBack)
  }

  function ServerNext(s: State, step: ServerStep): State
    requires ServerEnabled(s, step)
  {
    var server := s.server;
    match step
    case CommitChanges(changes) =>
      var log := server.log + changes;
      s.(server := server.(log := log, ends := server.ends + {|log|}))
    case WriteChallenge(id) =>
      s.(server := server.(challenges := server.challenges[id := |server.log|]))
  }

  function StreamNext(s: State, step: StreamStep): State
    requires StreamEnabled(s, step)
  {
    var stream := s.stream;
    match step
    case ReadRow => DoReadRow(s)
    case ReadXid => DoReadXid(s)
    case ReadChallenge(id) =>
      s.(stream := stream.(channel := stream.channel + [Write(id)]))
    case Reconnect =>
      var target := Target(stream);
      s.(stream := stream.(next := target, since := target, lastTrx := None, hasRows := false),
         fellBack := s.fellBack || target < stream.since)
    case Listen => s.(stream := stream.(listening := true))
    case Dispatch => DoDispatch(s)
    case DispatchFail => s.(stream := stream.(channel := stream.channel[1..], dispatching := false))
    case EnqueueSentinel(id) =>
      s.(stream := stream.(waiting := stream.waiting - {id}),
         worker := s.worker.(queue := s.worker.queue + [Write(id)]))
  }

  function WorkerNext(s: State, step: WorkerStep): State
    requires WorkerEnabled(s, step)
  {
    match step
    case Take(available, size) => DoTake(s, available, size)
    case CommitBatch => DoCommitBatch(s)
    case FailBatch(built) =>
      s.(worker := s.worker.(hand := s.worker.hand.(rebuilt := s.worker.hand.rebuilt || built)))
    case CommitUnseen => DoCommitUnseen(s)
    case Settle => DoSettle(s)
  }

  function CopyNext(s: State, step: CopyStep): State
    requires CopyEnabled(s, step)
  {
    match step
    case ReadRange(range) => s.(copy := s.copy.(range := Some(range)))
    case CopyChunk(end, again) =>
      var (start, inclusive) := ChunkStart(s.copy);
      s.(shadow := CopyRows(s.shadow, Current(s.server), start, inclusive || again, end),
         copy := s.copy.(copiedTo := Some(end)))
    case CopyUnseen(end, again) =>
      var (start, inclusive) := ChunkStart(s.copy);
      s.(shadow := CopyRows(s.shadow, Current(s.server), start, inclusive || again, end))
    case FinishCopy(moved) =>
      s.(copy := s.copy.(finished := true, copiedTo := if moved.Some? then moved else s.copy.copiedTo))
  }

  function ProcessNext(s: State, step: ProcessStep): State
    requires ProcessEnabled(s, step)
  {
    match step
    case SampleCheckpoint => s.(sampled := Some(Checkpoint(s.stream.next, s.copy.copiedTo.value)))
    case StoreCheckpoint => s.(stored := Some(Checkpoint(s.worker.acked.value, s.sampled.value.copiedTo)))
    case Resume => DoResume(s)
  }

  function Next(s: State, step: Step): State
    requires Enabled(s, step)
  {
    match step
    case ByServer(x) => ServerNext(s, x)
    case ByStream(x) => StreamNext(s, x)
    case ByWorker(x) => WorkerNext(s, x)
    case ByCopy(x) => CopyNext(s, x)
    case ByProcess(x) => ProcessNext(s, x)
  }

  // ----- runs

  ghost predicate IsRun(s: State, steps: seq<Step>)
    decreases |steps|
  {
    steps == [] || (Enabled(s, steps[0]) && IsRun(Next(s, steps[0]), steps[1..]))
  }

  ghost function Final(s: State, steps: seq<Step>): State
    requires IsRun(s, steps)
    decreases |steps|
  {
    if steps == [] then s else Final(Next(s, steps[0]), steps[1..])
  }

  // ----- the invariant

  ghost predicate ServerInv(server: Server) {
    && ValidLog(server.init, server.log)
    && (forall e | e in server.ends :: 0 < e <= |server.log|) && (server.log == [] || |server.log| in server.ends)
    && (forall id | id in server.challenges :: server.challenges[id] <= |server.log|)
  }

  /** Until the listener is registered for the first time, nothing has touched the ghost. */
  predicate FreshInv(s: State) {
    !s.stream.listening && !s.resumed ==>
      && s.server.challenges == map[] && s.shadow == map[] && s.copy == Copy(None, None, false)
      && s.sampled.None? && s.stored.None?
      && s.worker.queue == [] && s.worker.hand.Idle? && s.worker.acked.None?
      && s.stream.waiting == {} && s.worker.committed == {}
      && s.stream.channel == [] && s.stream.dispatching
  }

  predicate OnlySentinels(tasks: seq<Task>) {
    forall i | 0 <= i < |tasks| :: tasks[i].Write?
  }

  /** Rows of the current transaction were read, but none was decoded. */
  predicate Undecoded(stream: Stream) {
    stream.since < stream.next && !stream.hasRows
  }

  /**
   Without a listener nothing but sentinels is on its way, and after a resume
   nothing was read. A transaction none of whose rows was decoded has nothing in
   flight around it.
   */
  predicate HeardInv(s: State) {
    var stream, w := s.stream, s.worker;
    && (!stream.listening ==> !stream.hasRows && OnlySentinels(stream.channel) && OnlySentinels(InWork(w)))
    && (!stream.listening && s.resumed ==>
        stream.next == stream.since == stream.initial == w.applied && stream.lastTrx.None?)
    && (w.hand.Holding? ==> w.hand.tasks != [] && w.hand.tasks[0].Dml? && FunctionLast(w.hand.tasks))
    && (s.copy.finished ==> s.copy.range.Some?) && (s.copy.range.Some? ==> stream.listening)
    && (Undecoded(stream) ==>
          && !s.resumed && stream.dispatching && InFlight(s) == [] && stream.waiting == {} && w.applied == stream.next
          && forall id | id in s.server.challenges :: stream.since < s.server.challenges[id])
  }

  predicate GapInv(s: State) {
    var w, n := s.worker, |s.server.log|;
    && w.applied <= n
    && s.stream.initial <= Target(s.stream) <= s.stream.next <= n
    && Gapless(InFlight(s), w.applied, n)
    && (s.stream.dispatching ==> s.stream.next <= End(InFlight(s), w.applied))
    && (w.hand.Settling? ==> Rows(w.hand.tasks) == [])
  }

  predicate HighInv(s: State) {
    var w := s.worker;
    && w.applied <= w.high && Marked(InFlight(s), w.high)
    && (w.acked.Some? ==> w.acked.value <= w.high)
    && (s.stored.Some? ==> s.stored.value.coord <= w.high)
    && (forall p | w.captured <= p < w.high :: p in w.committed)
  }

  predicate FloorInv(s: State) {
    var stream, w, challenges := s.stream, s.worker, s.server.challenges;
    && w.floor <= w.applied && stream.initial <= stream.since <= stream.next
    && Ordered(InFlight(s), w.floor, w.applied, challenges)
    && (stream.dispatching ==> FloorEnd(InFlight(s), w.floor) == stream.since)
    && (stream.lastTrx.Some? ==> stream.lastTrx.value == stream.since)
    && (w.acked.Some? ==> w.acked.value <= w.floor)
    && (s.stored.Some? ==> s.stored.value.coord <= w.floor)
    && (forall id | id in stream.waiting :: id in challenges && challenges[id] <= FloorEnd(InWork(w), w.floor))
    && (forall id | id in w.ran :: id in challenges && challenges[id] <= w.floor)
  }

  /** The position that the ghost is not behind: a batch in hand may be on it already. */
  function Low(w: Worker): nat {
    if w.hand.Holding? then Min(w.applied, End(w.hand.tasks, w.applied)) else w.applied
  }

  ghost predicate KeysInv(s: State) {
    forall k :: KeyOk(s.server.init, s.server.log, Low(s.worker), s.shadow, Secured(s, k), k)
  }

  ghost predicate Inv(s: State) {
    && ServerInv(s.server)
    && (!s.lost ==> FreshInv(s) && HeardInv(s) && GapInv(s) && HighInv(s) && KeysInv(s))
    && (!s.lost && !s.fellBack ==> FloorInv(s))
  }
}
