/** The snowflake identifier generator: a relative millisecond timestamp, a
    worker partition, a process partition and a per-millisecond sequence,
    packed into one integer. The wall clock is an explicit parameter: one call
    of the generator is given the readings it takes of the clock, in order. */
module Snowflake {
  import opened Common

  /** 2024-01-01T00:00:00Z, in milliseconds since the Unix epoch. */
  const Epoch: int := 1704067200000

  /** The weights of the four bit fields: `1 << 22`, `1 << 17`, `1 << 12`. */
  const TimestampUnit: nat := 0x40_0000
  const WorkerUnit: nat := 0x2_0000
  const ProcessUnit: nat := 0x1000

  /** The sequence is masked with `0xFFF`; for a non-negative value that mask
      is the remainder modulo 4096. */
  const SequenceModulus: nat := 0x1000

  /** Partitions derived from the host are reduced modulo 32 (five bits). */
  const PartitionModulus: nat := 32

  datatype Partition = Partition(workerId: nat, processId: nat)

  /** Both partitions fit their five-bit fields. */
  predicate ValidPartition(p: Partition) {
    p.workerId < PartitionModulus && p.processId < PartitionModulus
  }

  // ---------------------------------------------------------------------
  // Partition derivation
  // ---------------------------------------------------------------------

  /** `digestPrefix` is the first four bytes (big-endian) of the MD5 digest of
      the host name; the digest itself is not modelled. */
  function DeriveFromHostname(digestPrefix: nat, max: nat): (r: nat)
    requires max > 0
    ensures r < max
    ensures digestPrefix < max ==> r == digestPrefix
  {
    digestPrefix % max
  }

  /** Exclusive-or of two five-bit values (the source's `^`, which on values
      below 32 touches only the low five bits). */
  function Xor5(a: nat, b: nat): (r: nat)
    requires a < PartitionModulus && b < PartitionModulus
    ensures r < PartitionModulus
  {
    ((a as bv5) ^ (b as bv5)) as nat
  }

  /** The partition of one process. An explicitly configured value (a set,
      non-empty `WORKER_ID` / `PROCESS_ID`, already parsed) takes precedence;
      otherwise the worker is the host hash modulo 32 and the process is that
      hash exclusive-or the process id modulo 32. */
  function ResolvePartition(workerEnv: Option<nat>, processEnv: Option<nat>,
                            hostDigest: nat, pid: nat): (p: Partition)
    ensures workerEnv.Some? ==> p.workerId == workerEnv.value
    ensures processEnv.Some? ==> p.processId == processEnv.value
    ensures workerEnv.None? ==> p.workerId == hostDigest % PartitionModulus
    ensures processEnv.None? ==> p.processId < PartitionModulus
    ensures ((workerEnv.None? || workerEnv.value < PartitionModulus) &&
             (processEnv.None? || processEnv.value < PartitionModulus)) ==> ValidPartition(p)
  {
    var derived := DeriveFromHostname(hostDigest, PartitionModulus);
    Partition(
      workerEnv.GetOr(derived),
      if processEnv.Some? then processEnv.value else Xor5(derived, pid % PartitionModulus))
  }

  /** Without configuration, the process partition determines the process id
      modulo 32 given the host: exclusive-or with the host hash undoes it. So
      two processes on one host whose ids differ modulo 32 get different
      process partitions. */
  lemma DerivedProcessIdRecoversPid(hostDigest: nat, pid: nat)
    ensures var p := ResolvePartition(None, None, hostDigest, pid);
            Xor5(p.workerId, p.processId) == pid % PartitionModulus
  {
    var w := hostDigest % PartitionModulus;
    var q := pid % PartitionModulus;
    var x := Xor5(w, q);
    XorCancels(w as bv5, q as bv5);
    SmallToBv5(x);
    SmallToBv5(q);
    assert x as bv5 == (w as bv5) ^ (q as bv5);
  }

  lemma XorCancels(a: bv5, b: bv5)
    ensures a ^ (a ^ b) == b
  {
  }

  lemma SmallToBv5(x: nat)
    requires x < PartitionModulus
    ensures (x as bv5) as nat == x
  {
  }

  lemma CoLocatedProcessesGetDistinctPartitions(hostDigest: nat, pid1: nat, pid2: nat)
    requires pid1 % PartitionModulus != pid2 % PartitionModulus
    ensures ResolvePartition(None, None, hostDigest, pid1) != ResolvePartition(None, None, hostDigest, pid2)
  {
    DerivedProcessIdRecoversPid(hostDigest, pid1);
    DerivedProcessIdRecoversPid(hostDigest, pid2);
  }

  // ---------------------------------------------------------------------
  // Packing and unpacking
  // ---------------------------------------------------------------------

  /** `(t << 22) | (workerId << 17) | (processId << 12) | sequence`. The three
      low fields together are below `1 << 22` and the shifted timestamp has
      its low 22 bits clear (also for a negative timestamp in two's
      complement), so the bitwise or is the sum written here. */
  function Pack(t: int, p: Partition, s: nat): int
    requires ValidPartition(p) && s < SequenceModulus
  {
    t * TimestampUnit + p.workerId * WorkerUnit + p.processId * ProcessUnit + s
  }

  /** `id >> 22`: an arithmetic shift, which is floor division. */
  function TimestampOf(id: int): int {
    id / TimestampUnit
  }

  /** `(id >> 17) & 0x1F`. */
  function WorkerOf(id: int): nat {
    (id / WorkerUnit) % PartitionModulus
  }

  /** `(id >> 12) & 0x1F`. */
  function ProcessOf(id: int): nat {
    (id / ProcessUnit) % PartitionModulus
  }

  /** `id & 0xFFF`. */
  function SequenceOf(id: int): nat {
    id % SequenceModulus
  }

  /** The four fields occupy disjoint bit ranges: each is recovered from the
      packed identifier by shift-and-mask. */
  lemma UnpackPack(t: int, p: Partition, s: nat)
    requires ValidPartition(p) && s < SequenceModulus
    ensures TimestampOf(Pack(t, p, s)) == t
    ensures WorkerOf(Pack(t, p, s)) == p.workerId
    ensures ProcessOf(Pack(t, p, s)) == p.processId
    ensures SequenceOf(Pack(t, p, s)) == s
  {
    var id := Pack(t, p, s);
    var w, pr := p.workerId, p.processId;
    assert id == t * 0x40_0000 + w * 0x2_0000 + pr * 0x1000 + s;
    assert id / 0x40_0000 == t;
    assert id / 0x2_0000 == t * 32 + w;
    assert id / 0x1000 == (t * 32 + w) * 32 + pr;
  }

  /** Identifiers of different partitions never collide, whatever their
      timestamps and sequences. */
  lemma DistinctPartitionsNeverCollide(t1: int, p1: Partition, s1: nat, t2: int, p2: Partition, s2: nat)
    requires ValidPartition(p1) && s1 < SequenceModulus
    requires ValidPartition(p2) && s2 < SequenceModulus
    requires p1 != p2
    ensures Pack(t1, p1, s1) != Pack(t2, p2, s2)
  {
    UnpackPack(t1, p1, s1);
    UnpackPack(t2, p2, s2);
  }

  /** Within one partition, identifiers are ordered by (timestamp, sequence). */
  lemma PackOrder(t1: int, s1: nat, t2: int, s2: nat, p: Partition)
    requires ValidPartition(p) && s1 < SequenceModulus && s2 < SequenceModulus
    requires t1 < t2 || (t1 == t2 && s1 < s2)
    ensures Pack(t1, p, s1) < Pack(t2, p, s2)
  {
    if t1 < t2 {
      assert t1 * TimestampUnit + TimestampUnit <= t2 * TimestampUnit;
    }
  }

  /** The packing exactly as written: the four values are shifted and or-ed
      with nothing bounding the worker and process values. The source's
      integers are unbounded; this is the same or on a 64-bit word, which
      agrees with it for non-negative values whose shifts fit in 64 bits. */
  function PackAsWritten(t: bv64, w: bv64, p: bv64, s: bv64): (r: bv64)
    requires t < 0x400_0000_0000 && w < 0x8000_0000_0000 && p < 0x10_0000_0000_0000 && s < 0x1000
    // the sequence is always in the low twelve bits, and the or never loses the timestamp
    ensures r & 0xFFF == s
    ensures r >= t << 22
  {
    (t << 22) | (w << 17) | (p << 12) | s
  }

  /** For fields within their widths the shifted fields do not overlap, so
      the or is the weighted sum `Pack` computes, and shift-and-mask
      recovers each field. */
  lemma PackedFieldsAreDisjoint(t: bv64, w: bv64, p: bv64, s: bv64)
    requires t < 0x400_0000_0000 && w < 32 && p < 32 && s < 0x1000
    ensures PackAsWritten(t, w, p, s) == t * 0x40_0000 + w * 0x2_0000 + p * 0x1000 + s
    ensures PackAsWritten(t, w, p, s) >> 22 == t
    ensures (PackAsWritten(t, w, p, s) >> 17) & 0x1F == w
    ensures (PackAsWritten(t, w, p, s) >> 12) & 0x1F == p
    ensures PackAsWritten(t, w, p, s) & 0xFFF == s
  {
  }

  /** A worker value of 32 spills into the timestamp's lowest bit: at an
      even timestamp, worker 32 issues the identifier worker 0 issues one
      millisecond later, with the same process and sequence. */
  lemma {:induction false} WorkerThirtyTwoCollides(t: bv64, p: bv64, s: bv64)
    requires t < 0x3FF_FFFF_FFFF && t & 1 == 0 && p < 32 && s < 0x1000
    ensures PackAsWritten(t, 32, p, s) == PackAsWritten(t + 1, 0, p, s)
  {
    CarryIntoTimestamp(t);
    WorkerThirtyTwoPacking(t, p, s);
    WorkerZeroPacking(t + 1, p, s);
  }

  /** A single process configured with worker 32 repeats itself: at an even
      timestamp and the next one, with the same process and sequence, it
      issues the same identifier (2 and 3 with process and sequence 0 is
      the smallest case). Both calls see a new millisecond, so the sequence
      restarts at 0 in both. */
  lemma {:induction false} SingleProcessRepeatsId(t: bv64, p: bv64, s: bv64)
    requires t < 0x3FF_FFFF_FFFF && t & 1 == 0 && p < 32 && s < 0x1000
    ensures PackAsWritten(t, 32, p, s) == PackAsWritten(t + 1, 32, p, s)
  {
    CarryIntoTimestamp(t);
    WorkerThirtyTwoPacking(t, p, s);
    SuccessorOfEvenIsOdd(t);
    OddShiftHasUnit(t + 1);
    WorkerThirtyTwoPacking(t + 1, p, s);
  }

  /** The smallest instance: milliseconds 2 and 3 under worker 32. */
  lemma SingleProcessRepeatsIdAtTwo()
    ensures PackAsWritten(2, 32, 0, 0) == PackAsWritten(3, 32, 0, 0) == 0xC0_0000
  {
    SingleProcessRepeatsId(2, 0, 0);
  }

  lemma SuccessorOfEvenIsOdd(t: bv64)
    requires t < 0x3FF_FFFF_FFFF && t & 1 == 0
    ensures (t + 1) & 1 == 1
  {
  }

  lemma OddShiftHasUnit(u: bv64)
    requires u & 1 == 1
    ensures (u << 22) | 0x40_0000 == u << 22
  {
  }

  lemma WorkerThirtyTwoPacking(t: bv64, p: bv64, s: bv64)
    requires t < 0x400_0000_0000 && p < 32 && s < 0x1000
    ensures PackAsWritten(t, 32, p, s) == (((t << 22) | 0x40_0000) | (p << 12)) | s
  {
  }

  lemma WorkerZeroPacking(t: bv64, p: bv64, s: bv64)
    requires t < 0x400_0000_0000 && p < 32 && s < 0x1000
    ensures PackAsWritten(t, 0, p, s) == ((t << 22) | (p << 12)) | s
  {
  }

  /** The shifted worker 32 is the timestamp's unit; on an even timestamp
      its bit is clear, so the or is the addition of one millisecond. */
  lemma CarryIntoTimestamp(t: bv64)
    requires t < 0x3FF_FFFF_FFFF && t & 1 == 0
    ensures (32 as bv64) << 17 == 0x40_0000
    ensures (t << 22) | 0x40_0000 == (t + 1) << 22
  {
    EvenShiftClearsUnit(t);
    ShiftOfSuccessor(t);
    OrOfClearBit(t << 22);
  }

  lemma EvenShiftClearsUnit(t: bv64)
    requires t & 1 == 0
    ensures (t << 22) & 0x40_0000 == 0
  {
  }

  lemma ShiftOfSuccessor(t: bv64)
    ensures (t + 1) << 22 == (t << 22) + 0x40_0000
  {
  }

  lemma OrOfClearBit(x: bv64)
    requires x & 0x40_0000 == 0
    ensures x | 0x40_0000 == x + 0x40_0000
  {
  }

  /** The source takes configured values as they are: a configured worker
      of 32 is accepted and collides with worker 0. */
  lemma ConfiguredWorkerThirtyTwoCollides(hostDigest: nat, pid: nat, t: bv64, s: bv64)
    requires t < 0x3FF_FFFF_FFFF && t & 1 == 0 && s < 0x1000
    ensures var a := ResolvePartition(Some(32), Some(0), hostDigest, pid);
            var b := ResolvePartition(Some(0), Some(0), hostDigest, pid);
            && a != b && !ValidPartition(a) && ValidPartition(b)
            && PackAsWritten(t, a.workerId as bv64, a.processId as bv64, s)
               == PackAsWritten(t + 1, b.workerId as bv64, b.processId as bv64, s)
  {
    WorkerThirtyTwoCollides(t, 0, s);
  }

  /** The partition with the configured values held to their five-bit
      fields: a configured worker or process of 32 or more is refused
      (`None`) instead of being packed into a neighbouring field. */
  function CheckedPartition(workerEnv: Option<nat>, processEnv: Option<nat>, hostDigest: nat, pid: nat): (r: Option<Partition>)
    ensures r.Some? <==> (workerEnv.None? || workerEnv.value < PartitionModulus) &&
                         (processEnv.None? || processEnv.value < PartitionModulus)
    ensures r.Some? ==> r.value == ResolvePartition(workerEnv, processEnv, hostDigest, pid) && ValidPartition(r.value)
  {
    if (workerEnv.None? || workerEnv.value < PartitionModulus) && (processEnv.None? || processEnv.value < PartitionModulus)
    then Some(ResolvePartition(workerEnv, processEnv, hostDigest, pid))
    else None
  }

  /** With checked configuration, two processes with different partitions
      never issue the same identifier. */
  lemma CheckedPartitionsNeverCollide(w1: Option<nat>, p1: Option<nat>, h1: nat, pid1: nat,
                                      w2: Option<nat>, p2: Option<nat>, h2: nat, pid2: nat,
                                      t1: int, s1: nat, t2: int, s2: nat)
    requires CheckedPartition(w1, p1, h1, pid1).Some? && CheckedPartition(w2, p2, h2, pid2).Some?
    requires CheckedPartition(w1, p1, h1, pid1) != CheckedPartition(w2, p2, h2, pid2)
    requires s1 < SequenceModulus && s2 < SequenceModulus
    ensures Pack(t1, CheckedPartition(w1, p1, h1, pid1).value, s1) != Pack(t2, CheckedPartition(w2, p2, h2, pid2).value, s2)
  {
    DistinctPartitionsNeverCollide(t1, CheckedPartition(w1, p1, h1, pid1).value, s1,
                                   t2, CheckedPartition(w2, p2, h2, pid2).value, s2);
  }

  // ---------------------------------------------------------------------
  // The generator state machine
  // ---------------------------------------------------------------------

  /** The module-level state `sequence` / `lastTimestamp`; timestamps are
      relative to `Epoch`. */
  datatype Generator = Generator(sequence: nat, lastTimestamp: int)

  /** Both variables start at zero. */
  const Initial: Generator := Generator(0, 0)

  /** A completed call: the state after it and the identifier it returned. */
  datatype Issue = Issue(next: Generator, id: int)

  /** The first clock reading whose relative timestamp is strictly after
      `last`: where the busy-wait loop stops. */
  function FirstAfter(last: int, readings: seq<int>): (r: Option<nat>)
    ensures r.Some? ==> r.value < |readings| && readings[r.value] - Epoch > last
    ensures r.Some? ==> forall j :: 0 <= j < r.value ==> readings[j] - Epoch <= last
    ensures r.None? ==> forall j :: 0 <= j < |readings| ==> readings[j] - Epoch <= last
  {
    if |readings| == 0 then None
    else if readings[0] - Epoch > last then Some(0)
    else match FirstAfter(last, readings[1..])
      case None => None
      case Some(i) => Some(i + 1)
  }

  predicate NonDecreasing(s: seq<int>) {
    forall i, j :: 0 <= i <= j < |s| ==> s[i] <= s[j]
  }

  /** One call of the generator, given the clock readings it takes in order
      (the first is `Date.now()` at entry; later ones are read only while
      busy-waiting). `None` means the call has not returned within these
      readings: it is still waiting for the clock to pass the last
      millisecond. */
  function Next(g: Generator, p: Partition, readings: seq<int>): (r: Option<Issue>)
    requires ValidPartition(p) && |readings| > 0
    // the sequence stays within twelve bits
    ensures r.Some? ==> r.value.next.sequence < SequenceModulus
    // the issued identifier carries the new state's timestamp and sequence
    // and this process's partition in its fields
    ensures r.Some? ==> r.value.id == Pack(r.value.next.lastTimestamp, p, r.value.next.sequence)
    ensures r.Some? ==>
      && TimestampOf(r.value.id) == r.value.next.lastTimestamp
      && SequenceOf(r.value.id) == r.value.next.sequence
      && WorkerOf(r.value.id) == p.workerId
      && ProcessOf(r.value.id) == p.processId
    // a new millisecond resets the sequence
    ensures readings[0] - Epoch != g.lastTimestamp ==>
      r.Some? && r.value.next == Generator(0, readings[0] - Epoch)
    // the same millisecond increments it modulo 4096
    ensures readings[0] - Epoch == g.lastTimestamp && (g.sequence + 1) % SequenceModulus != 0 ==>
      r.Some? && r.value.next == Generator((g.sequence + 1) % SequenceModulus, g.lastTimestamp)
    // on wrap-around nothing is issued until the clock passes the last millisecond
    ensures readings[0] - Epoch == g.lastTimestamp && (g.sequence + 1) % SequenceModulus == 0 ==>
      && (r.Some? <==> exists j :: 1 <= j < |readings| && readings[j] - Epoch > g.lastTimestamp)
      && (r.Some? ==> r.value.next.sequence == 0 && r.value.next.lastTimestamp > g.lastTimestamp)
      // and the millisecond issued is that of the first later reading past it
      && (r.Some? ==>
            var i := FirstAfter(g.lastTimestamp, readings[1..]);
            i.Some? && r.value.next.lastTimestamp == readings[1 + i.value] - Epoch)
    // under a non-decreasing clock the issued timestamp lies within the readings taken
    ensures r.Some? && NonDecreasing(readings) ==>
      readings[0] - Epoch <= r.value.next.lastTimestamp <= readings[|readings| - 1] - Epoch
  {
    var now := readings[0] - Epoch;
    if now == g.lastTimestamp then
      var s := (g.sequence + 1) % SequenceModulus;
      if s == 0 then
        match FirstAfter(g.lastTimestamp, readings[1..])
        case None =>
          assert forall j :: 1 <= j < |readings| ==> readings[1..][j - 1] == readings[j];
          None
        case Some(i) =>
          var later := readings[1 + i] - Epoch;
          UnpackPack(later, p, 0);
          Some(Issue(Generator(0, later), Pack(later, p, 0)))
      else
        UnpackPack(now, p, s);
        Some(Issue(Generator(s, now), Pack(now, p, s)))
    else
      UnpackPack(now, p, 0);
      Some(Issue(Generator(0, now), Pack(now, p, 0)))
  }

  /** Under a clock that has not gone back since the last call, every
      identifier is strictly greater than the one issued before it (whose
      fields are the generator's state). */
  lemma NextIncreases(g: Generator, p: Partition, readings: seq<int>)
    requires ValidPartition(p) && |readings| > 0 && g.sequence < SequenceModulus
    requires readings[0] - Epoch >= g.lastTimestamp
    requires Next(g, p, readings).Some?
    ensures Next(g, p, readings).value.id > Pack(g.lastTimestamp, p, g.sequence)
  {
    var iss := Next(g, p, readings).value;
    PackOrder(g.lastTimestamp, g.sequence, iss.next.lastTimestamp, iss.next.sequence, p);
  }

  /** A clock whose readings, call after call, never go back. */
  predicate MonotoneClock(calls: seq<seq<int>>) {
    && (forall k :: 0 <= k < |calls| ==> |calls[k]| > 0 && NonDecreasing(calls[k]))
    && (forall k :: 0 < k < |calls| ==> Last(calls[k - 1]) <= First(calls[k]))
  }

  function First(s: seq<int>): int
    requires |s| > 0
  {
    s[0]
  }

  function Last(s: seq<int>): int
    requires |s| > 0
  {
    s[|s| - 1]
  }

  /** The identifiers issued by consecutive calls, each given its clock
      readings; the run ends at the first call that has not returned. */
  function Run(g: Generator, p: Partition, calls: seq<seq<int>>): (ids: seq<int>)
    requires ValidPartition(p)
    requires forall k :: 0 <= k < |calls| ==> |calls[k]| > 0
    ensures |ids| <= |calls|
    decreases |calls|
  {
    if |calls| == 0 then []
    else match Next(g, p, calls[0])
      case None => []
      case Some(iss) => [iss.id] + Run(iss.next, p, calls[1..])
  }

  /** The generator issues strictly increasing identifiers as long as the
      clock never goes back; the source has no guard against a clock that
      does, so this is a precondition and not a theorem. */
  lemma {:induction false} RunStrictlyIncreasing(g: Generator, p: Partition, calls: seq<seq<int>>)
    requires ValidPartition(p) && g.sequence < SequenceModulus
    requires MonotoneClock(calls)
    requires |calls| > 0 ==> First(calls[0]) - Epoch >= g.lastTimestamp
    ensures forall i :: 0 <= i < |Run(g, p, calls)| ==> Run(g, p, calls)[i] > Pack(g.lastTimestamp, p, g.sequence)
    ensures forall i, j :: 0 <= i < j < |Run(g, p, calls)| ==> Run(g, p, calls)[i] < Run(g, p, calls)[j]
    decreases |calls|
  {
    if |calls| > 0 && Next(g, p, calls[0]).Some? {
      var iss := Next(g, p, calls[0]).value;
      NextIncreases(g, p, calls[0]);
      var rest := calls[1..];
      assert MonotoneClock(rest) by {
        forall k | 0 < k < |rest|
          ensures Last(rest[k - 1]) <= First(rest[k])
        {
          assert rest[k - 1] == calls[k] && rest[k] == calls[k + 1];
        }
      }
      if |rest| > 0 {
        assert Last(calls[0]) <= First(calls[1]);
        assert iss.next.lastTimestamp <= Last(calls[0]) - Epoch;
      }
      RunStrictlyIncreasing(iss.next, p, rest);
      assert Run(g, p, calls) == [iss.id] + Run(iss.next, p, rest);
    }
  }

  /** The generator has no guard against a clock that goes back: a clock
      that goes back by one millisecond makes it issue a smaller identifier
      than the one before. */
  lemma ClockRegressionIssuesSmallerId()
    ensures var p := Partition(0, 0);
            var g := Generator(5, 1000);
            && Next(g, p, [Epoch + 999]).Some?
            && Next(g, p, [Epoch + 999]).value.id < Pack(1000, p, 5)
  {
  }
}
