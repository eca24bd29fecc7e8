/** The records of the task lineage and the keys they are stored under. */
module Domain {
  import opened Results

  /**
    Hashed identifiers, by what they hash. The program hashes the parts joined by colons; the joined text is
    taken to determine its parts and `stable_id` to be injective on it, so that two ids are equal exactly when
    their parts are.
   */
  datatype TaskId = TaskId(root: string, evidence: string, title: string)

  datatype EpisodeId = EpisodeId(task: TaskId, evidence: string)

  /** `rest` stands for the fields of a cursor that only the source interprets. */
  datatype Cursor = Cursor(offset: nat, generation: nat, rest: string)

  datatype Evidence = Evidence(eventId: string, file: string, byteOffset: nat, generation: nat)

  /** A time stamp: its place in the order of the texts, and its milliseconds when the text parses. */
  datatype Stamp = Stamp(order: int, millis: Option<int>)

  datatype Role = User | Assistant | OtherRole

  datatype Message = Message(
    evidence: Evidence, threadId: string, role: Role, text: string,
    timestamp: Option<Stamp>, turnId: Option<string>)

  datatype Thread = Thread(
    id: string, title: string, creationKind: string, parentId: Option<string>, timestamp: Option<Stamp>)

  datatype Link = Link(
    parentId: string, childId: string, kind: string, evidence: Evidence, timestamp: Option<Stamp>)

  datatype Batch = Batch(messages: seq<Message>, links: seq<Link>, cursor: Cursor, reset: bool)

  datatype ScanState = ScanState(
    normalizationVersion: nat, cursor: Cursor, messageCount: nat, extractedCount: nat,
    lastError: Option<string>, dirtyRevision: nat, extractedRevision: nat, lastChangedAt: int)

  const FRESH_SCAN := ScanState(0, Cursor(0, 0, ""), 0, 0, None, 0, 0, 0)

  datatype Episode = Episode(
    id: EpisodeId, threadId: string, title: string, evidenceIds: seq<string>,
    startedAt: Option<Stamp>, endedAt: Option<Stamp>)

  datatype Edge = Edge(from: EpisodeId, to: EpisodeId, evidenceIds: seq<string>)

  datatype Task = Task(
    revision: nat, id: TaskId, rootThreadId: string, title: string, detail: string,
    episodes: seq<Episode>, edges: seq<Edge>, manualCompletion: bool, watermarks: map<string, Cursor>)

  datatype Key =
    | ScanKey(thread: string)
    | ThreadKey(thread: string)
    | LinksKey(thread: string)
    | EventKey(thread: string, generation: nat, chunk: nat)
    | TaskKey(task: TaskId)
    | TreeKey
    | LineageKey
    | OtherKey(name: string)

  datatype Value =
    | ScanValue(scan: ScanState)
    | ThreadValue(thread: Thread)
    | LinksValue(links: seq<Link>)
    | ChunkValue(messages: seq<Message>)
    | TaskValue(task: Task)
    | TreeValue(threads: seq<Thread>)
    | OtherValue(text: string)

  type Files = map<Key, Value>

  function ScanOf(files: Files, thread: string): ScanState {
    if ScanKey(thread) in files && files[ScanKey(thread)].ScanValue? then files[ScanKey(thread)].scan
    else FRESH_SCAN
  }

  function LinksAt(files: Files, key: Key): seq<Link> {
    if key in files && files[key].LinksValue? then files[key].links else []
  }

  function TaskAt(files: Files, id: TaskId): Option<Task> {
    if TaskKey(id) in files && files[TaskKey(id)].TaskValue? then Some(files[TaskKey(id)].task) else None
  }
}
