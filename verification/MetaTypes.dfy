/** Records and command payloads of the metadata state machine, and its machine integers. */
module MetaTypes {
  type TopicID = string
  type BrokerID = string

  type int32 = x: int | -0x8000_0000 <= x < 0x8000_0000
  type int64 = x: int | -0x8000_0000_0000_0000 <= x < 0x8000_0000_0000_0000

  const MAX_INT: int64 := 0x7FFF_FFFF_FFFF_FFFF

  /** The value 64-bit arithmetic gives for a mathematical result `x`: two's complement wrap-around. */
  function Wrap64(x: int): int64 {
    if -0x8000_0000_0000_0000 <= x < 0x8000_0000_0000_0000 then x
    else (x + 0x8000_0000_0000_0000) % 0x1_0000_0000_0000_0000 - 0x8000_0000_0000_0000
  }

  /** The increments of the 32-bit epochs and of the 64-bit version. */
  function Next32(x: int32): int32 { if x == 0x7FFF_FFFF then -0x8000_0000 else x + 1 }

  function Next64(x: int64): int64 { if x == MAX_INT then -0x8000_0000_0000_0000 else x + 1 }

  datatype PartitionStatus = Online | Offline

  datatype PartitionKey = PartitionKey(topicID: TopicID, partitionID: int32)

  datatype TopicConfig = TopicConfig(retentionMs: int64, retentionBytes: int64, segmentBytes: int64,
                                     minISR: int32, maxMessageBytes: int32, cleanupPolicy: string)

  datatype Topic = Topic(topicID: TopicID, name: string, numPartitions: int32, replicationFactor: int32,
                         isInternal: bool, config: TopicConfig)

  datatype PartitionState = PartitionState(topicID: TopicID, partitionID: int32, status: PartitionStatus,
                                           replicas: seq<BrokerID>, isr: seq<BrokerID>, leader: BrokerID,
                                           leaderEpoch: int32, partitionEpoch: int32)

  /** The four replicated commands with their payloads. */
  datatype Command =
    | ClusterInit(clusterID: string)
    | CreateTopic(topicID: TopicID, name: string, numPartitions: int32, replicationFactor: int32,
                  isInternal: bool, config: TopicConfig, brokers: seq<BrokerID>)
    | DeleteTopic(topicID: TopicID)
    | UpdatePartition(key: PartitionKey, newLeader: BrokerID, newISR: seq<BrokerID>, expectedEpoch: int32,
      reason: string)
}
