/** The records kept by the metadata service and the state of its in-memory repository.

    Times are integers (nanoseconds).  Fields that no modelled operation reads
    (owners, labels, tags, creation times, ...) are not part of the records. */
module Metadata {
  import opened Wrappers

  type InodeId = string
  type FileId = string
  type ChunkId = string
  type SessionId = string
  type NodeId = string
  type PlanId = string

  newtype byte = x: int | 0 <= x < 256
  type Bytes = seq<byte>

  const ROOT_INODE_ID: InodeId := "root"
  const CHUNK_SIZE: int := 4194304
  const DEFAULT_REPLICA_COUNT: int := 3
  const MINIMUM_READABLE_REPLICA_COUNT: int := 1

  datatype InodeType = FileInode | DirectoryInode
  datatype InodeStatus = InodeActive | InodeDeleting | InodeDeleted

  datatype Inode = Inode(
    id: InodeId,
    parentId: InodeId,
    fileId: FileId,
    path: string,
    name: string,
    kind: InodeType,
    status: InodeStatus)

  datatype Checksum = Checksum(algorithm: string, value: string, verified: bool, verifiedAt: Option<int>)

  const EMPTY_CHECKSUM := Checksum("", "", false, None)

  datatype ReplicaPolicy = ReplicaPolicy(desired: int, minimum: int, current: int)

  datatype FileStatus =
    | FilePending | FileUploading | FileVerifying | FileAvailable
    | FileCorrupted | FileDeleting | FileDeleted | FileFailed

  datatype File = File(
    id: FileId,
    inodeId: InodeId,
    parentInodeId: InodeId,
    path: string,
    name: string,
    size: int,
    storedSize: int,
    status: FileStatus,
    latestSession: SessionId,
    checksum: Checksum,
    policy: ReplicaPolicy)

  datatype ReplicaRole = Primary | Secondary | Witness
  datatype ReplicaState = Pending | Writing | Ready | Lagging | Corrupted | Lost

  datatype Replica = Replica(
    nodeId: NodeId,
    fileId: FileId,
    chunkId: ChunkId,
    role: ReplicaRole,
    state: ReplicaState,
    checksum: Checksum,
    storedSize: int)

  type ReplicaSet = map<NodeId, Replica>

  datatype ChunkStatus =
    | ChunkPending | ChunkWriting | ChunkPersisted | ChunkVerifying
    | ChunkAvailable | ChunkCorrupted | ChunkFailed

  datatype Chunk = Chunk(
    id: ChunkId,
    fileId: FileId,
    index: int,
    offset: int,
    size: int,
    status: ChunkStatus,
    checksum: Checksum,
    policy: ReplicaPolicy,
    replicaCount: int,
    replicas: ReplicaSet)

  datatype UploadStatus =
    | UploadPending | UploadActive | UploadPaused | UploadRetrying
    | UploadVerifying | UploadCompleted | UploadFailed | UploadExpired

  datatype Session = Session(
    id: SessionId,
    fileId: FileId,
    status: UploadStatus,
    expectedSize: int,
    confirmedOffset: int,
    nextOffset: int,
    lastPersistedChunk: ChunkId,
    expectedChecksum: Option<Checksum>,
    verifiedChecksum: Option<Checksum>,
    lastFailedOffset: int,
    lastFailedChunk: ChunkId)

  datatype Node = Node(
    id: NodeId,
    address: string,
    capacity: int,
    used: int,
    healthy: bool,
    lastSeenAt: Option<int>)

  datatype PlanType = Failover | Rebalance | Cleanup

  datatype PlanState = Planned | Materialized | CopyReady | CleanupReady | Done | PlanFailed

  datatype Plan = Plan(
    id: PlanId,
    kind: PlanType,
    chunkId: ChunkId,
    fileId: FileId,
    source: NodeId,
    target: NodeId,
    requiredBytes: int,
    state: PlanState,
    retryCount: int,
    createdAt: int)

  /** The whole repository: one map per kind of record. */
  datatype State = State(
    inodes: map<InodeId, Inode>,
    files: map<FileId, File>,
    chunks: map<ChunkId, Chunk>,
    sessions: map<SessionId, Session>,
    nodes: map<NodeId, Node>,
    plans: map<PlanId, Plan>)
}
