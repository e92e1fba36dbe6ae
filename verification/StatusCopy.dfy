/** An OpNode status on the heap: the hand-written copy of `updateStatusWithRetry`, the generated DeepCopyInto, and the
    in-place update of the node information. */
module StatusCopy {
  import opened Types
  import opened Store
  import opened Machine

  class ChainHeadInfo {
    var blockNumber: int64
    var blockHash: string
    var timestamp: int

    constructor (blockNumber: int64, blockHash: string, timestamp: int)
      ensures Value() == ChainHead(blockNumber, blockHash, timestamp)
    {
      this.blockNumber, this.blockHash, this.timestamp := blockNumber, blockHash, timestamp;
    }

    function Value(): ChainHead
      reads this
    {
      ChainHead(blockNumber, blockHash, timestamp)
    }

    method DeepCopyInto(out: ChainHeadInfo)
      modifies out
      ensures out.Value() == old(Value())
    {
      out.blockNumber, out.blockHash, out.timestamp := blockNumber, blockHash, timestamp;
    }
  }

  class SyncStatusInfo {
    var currentBlock: int64
    var highestBlock: int64
    var syncing: bool

    constructor (currentBlock: int64, highestBlock: int64, syncing: bool)
      ensures Value() == SyncStatus(currentBlock, highestBlock, syncing)
    {
      this.currentBlock, this.highestBlock, this.syncing := currentBlock, highestBlock, syncing;
    }

    function Value(): SyncStatus
      reads this
    {
      SyncStatus(currentBlock, highestBlock, syncing)
    }

    method DeepCopyInto(out: SyncStatusInfo)
      modifies out
      ensures out.Value() == old(Value())
    {
      out.currentBlock, out.highestBlock, out.syncing := currentBlock, highestBlock, syncing;
    }
  }

  class NodeInformation {
    var chainHead: ChainHeadInfo?
    var syncStatus: SyncStatusInfo?
    var peerCount: int32
    var engineConnected: bool

    constructor (peerCount: int32, engineConnected: bool)
      ensures Value() == NodeInfo(None, None, peerCount, engineConnected)
      ensures chainHead == null && syncStatus == null
    {
      this.chainHead, this.syncStatus := null, null;
      this.peerCount, this.engineConnected := peerCount, engineConnected;
    }

    /** The objects a holder of this one can reach and change. */
    ghost function Parts(): set<object>
      reads this
    {
      {this} + (if chainHead == null then {} else {chainHead}) + (if syncStatus == null then {} else {syncStatus})
    }

    function Value(): NodeInfo
      reads this, chainHead, syncStatus
    {
      NodeInfo(if chainHead == null then None else Some(chainHead.Value()),
               if syncStatus == null then None else Some(syncStatus.Value()),
               peerCount, engineConnected)
    }

    /** The generated copy: all fields at first, then new objects behind the pointers. */
    method DeepCopyInto(out: NodeInformation)
      requires out !in Parts()
      modifies out
      ensures out.Value() == old(Value()) && fresh(out.Parts() - {out})
    {
      out.chainHead, out.syncStatus := chainHead, syncStatus;
      out.peerCount, out.engineConnected := peerCount, engineConnected;
      if chainHead != null {
        var copy := new ChainHeadInfo(0, "", 0);
        chainHead.DeepCopyInto(copy);
        out.chainHead := copy;
      }
      if syncStatus != null {
        var copy := new SyncStatusInfo(0, 0, false);
        syncStatus.DeepCopyInto(copy);
        out.syncStatus := copy;
      }
    }
  }

  class OpNodeStatus {
    var phase: Phase
    var conditions: array?<Condition>
    var observedGeneration: int
    var nodeInfo: NodeInformation?

    constructor ()
      ensures Value() == EMPTY_STATUS && conditions == null && nodeInfo == null
    {
      phase, conditions, observedGeneration, nodeInfo := NoPhase, null, 0, null;
    }

    /** The objects behind the status. */
    ghost function Parts(): set<object>
      reads this, nodeInfo
    {
      (if conditions == null then {} else {conditions}) + (if nodeInfo == null then {} else nodeInfo.Parts())
    }

    /** A nil list is read as an empty one. */
    function Value(): Status
      reads this, conditions, nodeInfo, if nodeInfo == null then {} else nodeInfo.Parts()
    {
      Status(phase, if conditions == null then [] else conditions[..], observedGeneration,
             if nodeInfo == null then None else Some(nodeInfo.Value()), None)
    }

    /** The generated copy has the same value and shares nothing with its source. */
    method DeepCopyInto(out: OpNodeStatus)
      requires out != this
      modifies out
      ensures out.Value() == old(Value()) && (out.conditions == null <==> conditions == null)
      ensures fresh(out.Parts())
    {
      hide NodeInformation.Value;
      out.phase, out.conditions, out.observedGeneration, out.nodeInfo := phase, conditions, observedGeneration,
          nodeInfo;
      if conditions != null {
        out.conditions := DeepCopyConditions(conditions);
      }
      if nodeInfo != null {
        var copy := new NodeInformation(0, false);
        nodeInfo.DeepCopyInto(copy);
        out.nodeInfo := copy;
      }
    }
  }

  method DeepCopyConditions(list: array<Condition>) returns (copy: array<Condition>)
    ensures fresh(copy) && copy[..] == list[..]
  {
    var blank := Condition(Named(""), Unknown, "", "", 0, 0);
    copy := new Condition[list.Length](_ => blank);
    for i := 0 to list.Length
      invariant forall j :: 0 <= j < i ==> copy[j] == list[j]
    {
      copy[i] := list[i];
    }
  }

  /* ----- The hand-written copy ----- */

  method CopyConditions(conditions: array?<Condition>) returns (copies: array<Condition>)
    ensures fresh(copies) && copies[..] == if conditions == null then [] else conditions[..]
  {
    var n := if conditions == null then 0 else conditions.Length;
    var blank := Condition(Named(""), Unknown, "", "", 0, 0);
    copies := new Condition[n](_ => blank);
    for i := 0 to n
      invariant forall j :: 0 <= j < i ==> copies[j] == conditions[j]
    {
      var c := conditions[i];
      copies[i] := Condition(c.ctype, c.status, c.reason, c.message, c.lastTransition, c.observedGeneration);
    }
  }

  method CopyNodeInfo(info: NodeInformation) returns (copy: NodeInformation)
    ensures fresh(copy.Parts()) && copy.Value() == info.Value()
  {
    copy := new NodeInformation(info.peerCount, info.engineConnected);
    if info.syncStatus != null {
      copy.syncStatus := new SyncStatusInfo(info.syncStatus.currentBlock, info.syncStatus.highestBlock,
                                            info.syncStatus.syncing);
    }
    if info.chainHead != null {
      copy.chainHead := new ChainHeadInfo(info.chainHead.blockNumber, info.chainHead.blockHash,
                                          info.chainHead.timestamp);
    }
  }

  /** The hand-written copy.  The value is the one the state machine writes; nothing mutable is shared with the
      source. */
  method CopyStatus(opNode: OpNodeStatus, latest: OpNodeStatus)
    requires latest != opNode && latest.Parts() !! opNode.Parts()
    modifies latest
    ensures latest.Value() == CopiedStatus(NodeKind, old(opNode.Value()), old(latest.Value()))
    ensures opNode.Value() == old(opNode.Value()) && latest.Parts() !! opNode.Parts()
    ensures latest.conditions != null && fresh(latest.conditions)
    ensures if opNode.nodeInfo == null then latest.nodeInfo == old(latest.nodeInfo)
            else latest.nodeInfo != null && fresh(latest.nodeInfo.Parts())
  {
    hide NodeInformation.Value;
    CopyFields(opNode, latest);
    if opNode.nodeInfo != null {
      CopyInfo(opNode.nodeInfo, latest);
    }
  }

  method CopyFields(opNode: OpNodeStatus, latest: OpNodeStatus)
    requires latest != opNode
    modifies latest
    ensures latest.conditions != null && fresh(latest.conditions) && latest.nodeInfo == old(latest.nodeInfo)
    ensures var src := old(opNode.Value());
            latest.Value() == old(latest.Value()).(phase := src.phase, conditions := src.conditions,
                                                   observedGeneration := src.observedGeneration)
  {
    hide NodeInformation.Value;
    latest.phase := opNode.phase;
    latest.observedGeneration := opNode.observedGeneration;
    latest.conditions := CopyConditions(opNode.conditions);
  }

  method CopyInfo(info: NodeInformation, latest: OpNodeStatus)
    modifies latest
    ensures latest.nodeInfo != null && fresh(latest.nodeInfo.Parts())
    ensures latest.conditions == old(latest.conditions)
    ensures latest.Value() == old(latest.Value()).(nodeInfo := Some(info.Value()))
  {
    hide NodeInformation.Value;
    latest.nodeInfo := CopyNodeInfo(info);
  }

  /** The two copies agree on value exactly when the source has node information, or neither status has any; otherwise
      they differ in the node information only, which the hand-written copy leaves as it was. */
  lemma HandCopyIsDeepCopy(src: Status, latest: Status)
    requires src.networkInfo.None? && latest.networkInfo.None?
    ensures CopiedStatus(NodeKind, src, latest) == src <==> (src.nodeInfo.Some? || latest.nodeInfo.None?)
    ensures src.nodeInfo.None? ==> CopiedStatus(NodeKind, src, latest) == src.(nodeInfo := latest.nodeInfo)
  {
  }

  /** `updateNodeStatus`: edits the node information in place, creating what is missing. */
  method UpdateNodeStatus(status: OpNodeStatus)
    modifies status, status.nodeInfo, if status.nodeInfo == null then null else status.nodeInfo.syncStatus
    ensures status.Value() == old(status.Value()).(nodeInfo := Some(NodeInfoOf(old(status.Value().nodeInfo))))
    ensures Connected(old(status.Value().nodeInfo), status.Value().nodeInfo)
    ensures old(status.nodeInfo) != null ==> status.nodeInfo == old(status.nodeInfo)
  {
    if status.nodeInfo == null {
      status.nodeInfo := new NodeInformation(0, false);
    }
    status.nodeInfo.engineConnected := true;
    status.nodeInfo.peerCount := 0;
    if status.nodeInfo.syncStatus == null {
      status.nodeInfo.syncStatus := new SyncStatusInfo(0, 0, false);
    }
    status.nodeInfo.syncStatus.syncing := false;
  }
}
