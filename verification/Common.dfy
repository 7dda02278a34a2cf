/** Constants of the gateway and the small value types that every module shares. */
module Common {
  const MAX_PIDS := 8192
  const UNUSED_PID := 8193
  const PADDING_PID := 8191
  const TS_SIZE := 188
  const RTP_HEADER_SIZE := 12
  const INT64_MAX := 0x7fff_ffff_ffff_ffff

  datatype Option<+T> = None | Some(value: T)

  type Byte = b: int | 0 <= b < 256

  type Pid = p: int | IsPid(p)

  predicate IsPid(p: int) {
    0 <= p < 8192
  }

  /** A transport packet as far as the gateway looks into it: the header fields that are read or
      written, and the payload. `start` is payload_unit_start_indicator and `pointer` the
      pointer_field that goes with it; `pcr` says that an adaptation field carries a PCR. */
  datatype Ts = Ts(pid: Pid, cc: int, pcr: bool, start: bool, pointer: int, data: seq<Byte>)

  predicate NoDup<T(==)>(s: seq<T>) {
    forall i, j :: 0 <= i < j < |s| ==> s[i] != s[j]
  }
}
