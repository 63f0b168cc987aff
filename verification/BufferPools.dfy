/** The pool of read buffers: growable buffers on the heap, leased to holders who may do anything to them,
    and put back when the lease is dropped. */
module BufferPools {
  import opened Bytes

  const POOL_SIZE := 100

  function Max(a: nat, b: nat): nat {
    if a < b then b else a
  }

  function Min(a: nat, b: nat): nat {
    if a < b then a else b
  }

  // ----- How many buffers there are -----

  /** Buffers pooled and leased, allocations made by `acquire`, and the most leases there ever were at once. */
  datatype Census = Census(free: nat, out: nat, made: nat, peak: nat)

  function AcquireCount(c: Census): Census {
    if c.free > 0 then Census(c.free - 1, c.out + 1, c.made, Max(c.peak, c.out + 1))
    else Census(0, c.out + 1, c.made + 1, Max(c.peak, c.out + 1))
  }

  function DropCount(c: Census): Census
    requires c.out > 0
  {
    if c.free < POOL_SIZE then Census(c.free + 1, c.out - 1, c.made, c.peak)
    else Census(c.free, c.out - 1, c.made, c.peak)
  }

  /** The pool never grows beyond its limit (or its initial size), and enough buffers always exist. */
  predicate Bounded(c: Census, initial: nat) {
    && c.free <= Max(initial, POOL_SIZE)
    && c.free + c.out >= Min(initial, POOL_SIZE)
    && c.out <= c.peak
    && (initial <= POOL_SIZE && c.peak <= POOL_SIZE ==>
          initial + c.made == Max(initial, c.peak) && c.free + c.out == Max(initial, c.peak))
  }

  lemma AcquireKeepsBounds(c: Census, initial: nat)
    requires Bounded(c, initial)
    ensures Bounded(AcquireCount(c), initial)
  {
  }

  lemma DropKeepsBounds(c: Census, initial: nat)
    requires Bounded(c, initial) && c.out > 0
    ensures Bounded(DropCount(c), initial)
  {
  }

  ghost predicate IsPoolRun(run: seq<Census>, initial: nat) {
    && |run| > 0 && run[0] == Census(initial, 0, 0, 0)
    && forall i :: 0 <= i < |run| - 1 ==>
         run[i + 1] == AcquireCount(run[i]) || (run[i].out > 0 && run[i + 1] == DropCount(run[i]))
  }

  /** In every run: the bounds hold at every point, so an acquire allocates only when at least
      min(initial, 100) leases are out; and as long as no more than 100 are out at once, the allocations
      made are exactly those by which the peak demand exceeds the initial size. */
  lemma {:induction false} PoolRunBounds(run: seq<Census>, initial: nat)
    requires IsPoolRun(run, initial)
    ensures forall i :: 0 <= i < |run| ==> Bounded(run[i], initial)
    ensures forall i :: 0 <= i < |run| && AcquireCount(run[i]).made > run[i].made ==>
              run[i].out >= Min(initial, POOL_SIZE)
    ensures forall i :: 0 <= i < |run| && initial <= POOL_SIZE && run[i].peak <= POOL_SIZE ==>
              run[i].made == Max(initial, run[i].peak) - initial
  {
    if |run| > 1 {
      var before := run[..|run| - 1];
      PoolRunBounds(before, initial);
      assert run[|run| - 2] == before[|run| - 2];
    }
  }

  // ----- The buffers themselves -----

  function Zeros(n: nat): (r: bytes)
    ensures |r| == n && forall i :: 0 <= i < n ==> r[i] == 0
  {
    seq(n, _ => 0)
  }

  /** A growable byte vector: its contents, and the capacity the allocator has given it. */
  class Buffer {
    var data: bytes
    var capacity: nat

    /** `vec![0u8; n]`: the allocator may give more than asked. */
    constructor (n: nat, spare: nat)
      ensures data == Zeros(n) && capacity == n + spare
    {
      data, capacity := Zeros(n), n + spare;
    }

    /** Anything a holder can do to the vector it has leased. */
    method Overwrite(contents: bytes, room: nat)
      modifies this
      ensures data == contents && capacity == room
    {
      data, capacity := contents, room;
    }

    /** `clear` and `resize(n, 0)`. */
    method Blank(n: nat, spare: nat)
      modifies this
      ensures data == Zeros(n)
      ensures capacity == if n <= old(capacity) then old(capacity) else n + spare
    {
      data := Zeros(n);
      capacity := if n <= capacity then capacity else n + spare;
    }
  }

  /** A lease: the buffer, and its size as it was issued. */
  class PooledBuffer {
    const buffer: Buffer
    const bufferSize: nat

    constructor (buffer: Buffer)
      ensures this.buffer == buffer && bufferSize == Max(buffer.capacity, |buffer.data|)
    {
      this.buffer := buffer;
      bufferSize := Max(buffer.capacity, |buffer.data|);
    }
  }

  class BufferPool {
    const bufferSize: nat
    ghost const initial: nat
    var buffers: seq<Buffer>
    ghost var leases: set<PooledBuffer>
    ghost var made: nat
    ghost var peak: nat

    ghost function Tally(): Census
      reads this
    {
      Census(|buffers|, |leases|, made, peak)
    }

    /** The pooled buffers as a set. */
    ghost function Pooled(): set<Buffer>
      reads this
    {
      set b | b in buffers
    }

    ghost predicate Valid()
      reads this, buffers
    {
      Sound() && Bounded(Tally(), initial)
    }

    /** Pooled buffers are blank and long enough; no buffer is pooled twice, leased twice, or both pooled
        and leased.  Nothing is said about what leased buffers hold. */
    ghost predicate Sound()
      reads this, buffers
    {
      && (forall b :: b in buffers ==> |b.data| >= bufferSize && b.data == Zeros(|b.data|))
      && (forall i, j :: 0 <= i < j < |buffers| ==> buffers[i] != buffers[j])
      && (forall l :: l in leases ==> l.buffer !in buffers && l.bufferSize >= bufferSize)
      && (forall l, m :: l in leases && m in leases && l != m ==> l.buffer != m.buffer)
    }

    constructor (poolSize: nat, bufferSize: nat, spare: nat)
      ensures Valid() && this.bufferSize == bufferSize && Tally() == Census(poolSize, 0, 0, 0)
      ensures fresh(buffers) && initial == poolSize && leases == {}
    {
      this.bufferSize, initial := bufferSize, poolSize;
      leases, made, peak := {}, 0, 0;
      buffers := [];
      new;
      for i := 0 to poolSize
        invariant |buffers| == i && fresh(buffers)
        invariant forall b :: b in buffers ==> b.data == Zeros(bufferSize)
        invariant forall i, j :: 0 <= i < j < |buffers| ==> buffers[i] != buffers[j]
        invariant leases == {} && made == 0 && peak == 0
      {
        var b := new Buffer(bufferSize, spare);
        buffers := buffers + [b];
      }
    }

    /** Pops the last pooled buffer, or makes one. */
    method Take(spare: nat) returns (b: Buffer)
      requires Sound()
      modifies this`buffers, this`made
      ensures Sound() && b !in buffers && forall l :: l in leases ==> l.buffer != b
      ensures |b.data| >= bufferSize && b.data == Zeros(|b.data|)
      ensures if old(buffers) == [] then fresh(b) && buffers == [] && made == old(made) + 1
              else old(buffers) == buffers + [b] && made == old(made)
    {
      hide Zeros;
      if |buffers| > 0 {
        b := buffers[|buffers| - 1];
        buffers := buffers[..|buffers| - 1];
      } else {
        b := new Buffer(bufferSize, spare);
        made := made + 1;
      }
    }

    /** The last pooled buffer, or a new one: all zeros, and at least `bufferSize` long. */
    method Acquire(spare: nat) returns (lease: PooledBuffer)
      requires Valid()
      modifies this
      ensures Valid() && fresh(lease)
      ensures |lease.buffer.data| >= bufferSize && lease.buffer.data == Zeros(|lease.buffer.data|)
      ensures lease.bufferSize >= |lease.buffer.data|
      ensures if old(buffers) == [] then fresh(lease.buffer) && buffers == []
              else old(buffers) == buffers + [lease.buffer]
      ensures leases == old(leases) + {lease} && Tally() == AcquireCount(old(Tally()))
    {
      hide Bounded, Zeros;
      AcquireKeepsBounds(Tally(), initial);
      var b := Take(spare);
      lease := new PooledBuffer(b);
      leases := leases + {lease};
      peak := Max(peak, |leases|);
    }

    /** Dropping a lease, whatever its holder did to the buffer: it goes back blank, at its issued size,
        if the pool has room, and is freed otherwise. */
    method Release(lease: PooledBuffer, spare: nat)
      requires Valid() && lease in leases
      modifies this, lease.buffer
      ensures Valid() && leases == old(leases) - {lease}
      ensures buffers == if |old(buffers)| < POOL_SIZE then old(buffers) + [lease.buffer] else old(buffers)
      ensures lease.buffer.data == Zeros(lease.bufferSize)
      ensures Tally() == DropCount(old(Tally()))
    {
      hide Bounded, Zeros;
      DropKeepsBounds(Tally(), initial);
      lease.buffer.Blank(lease.bufferSize, spare);
      leases := leases - {lease};
      if |buffers| < POOL_SIZE {
        buffers := buffers + [lease.buffer];
      }
    }

    /** A holder writing to a leased buffer leaves the pool, and every buffer in it, as it was. */
    method HolderWrites(lease: PooledBuffer, contents: bytes, room: nat)
      requires Valid() && lease in leases
      modifies lease.buffer
      ensures Valid() && lease.buffer.data == contents
      ensures buffers == old(buffers) && Tally() == old(Tally())
      ensures forall b :: b in buffers ==> b.data == old(b.data)
    {
      lease.buffer.Overwrite(contents, room);
    }
  }

  /** A buffer dirtied by one holder reaches the next one blank, and no shorter than it was issued. */
  method Reuse(pool: BufferPool, contents: bytes, room: nat, spare: nat) returns (again: PooledBuffer)
    requires pool.Valid() && |pool.buffers| < POOL_SIZE
    modifies pool, pool.buffers
    ensures pool.Valid() && again.buffer.data == Zeros(|again.buffer.data|)
    ensures old(pool.buffers) != [] ==> again.buffer == old(pool.buffers[|pool.buffers| - 1])
    ensures old(pool.buffers) != [] ==>
              |again.buffer.data| >= old(|pool.buffers[|pool.buffers| - 1].data|)
  {
    hide Bounded, Zeros;
    var lease := pool.Acquire(spare);
    assert old(pool.buffers) != [] ==> lease.buffer == old(pool.buffers[|pool.buffers| - 1]);
    pool.HolderWrites(lease, contents, room);
    pool.Release(lease, spare);
    again := pool.Acquire(spare);
  }
}
