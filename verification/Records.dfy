/** The record type shared by the log, the codec, replication and the work queue. */
module Records {

  type byte = x: int | 0 <= x < 256

  type Bytes = seq<byte>

  /** One entry of a partition log. `seqno` is its 1-based sequence, `epoch` the
      leadership term it was written under (0: none). */
  datatype Record = Record(
    seqno: nat, timestamp: int, key: Bytes, headers: map<Bytes, Bytes>,
    payload: Bytes, flags: byte, epoch: nat)

  /** FlagEphemeral, bit 1: such a record is never persisted. */
  predicate Ephemeral(r: Record) {
    r.flags / 2 % 2 == 1
  }

  /** FlagHasEpoch, bit 2: set and cleared by the encoder only. */
  predicate EpochFlag(f: byte) {
    f / 4 % 2 == 1
  }

  function ClearEpochFlag(f: byte): byte {
    if EpochFlag(f) then f - 4 else f
  }

  function SetEpochFlag(f: byte): byte {
    if EpochFlag(f) then f else f + 4
  }
}
