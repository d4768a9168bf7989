/**
 * EmbeddedSDC: each instance takes its id from a process-wide counter, holds a
 * settable cluster source, and is in error exactly when that source is.
 */
module Embedded {
  import opened Wrappers
  import opened JavaInts

  /** The static AtomicInteger `instanceIdCounter`, which starts at 0; used sequentially here. */
  class InstanceIdCounter {
    var value: int

    /** The counter holds a Java int. */
    predicate Valid()
      reads this
    {
      IsInt(value)
    }

    constructor ()
      ensures Valid() && value == 0
    {
      value := 0;
    }

    /** getAndIncrement(): the current value; the counter moves on by one, wrapping as Java int addition does. */
    method GetAndIncrement() returns (v: int)
      requires Valid()
      modifies this
      ensures Valid()
      ensures v == old(value) && value == AddInt(old(value), 1)
    {
      v := value;
      value := AddInt(value, 1);
    }
  }

  /** ClusterSource, of which EmbeddedSDC only asks inErrorState(). */
  class ClusterSource {
    var errorState: bool

    constructor (errorState: bool)
      ensures this.errorState == errorState
    {
      this.errorState := errorState;
    }

    predicate InErrorState()
      reads this
    {
      errorState
    }
  }

  class EmbeddedSDC {
    /** The id taken at construction; a `const`, so it never changes afterwards. */
    const instanceId: int
    var source: Option<ClusterSource>

    /** new EmbeddedSDC(): takes the counter's value as id and advances the counter; no source yet. */
    constructor (counter: InstanceIdCounter)
      requires counter.Valid()
      modifies counter
      ensures counter.Valid()
      ensures instanceId == old(counter.value) && counter.value == AddInt(old(counter.value), 1)
      ensures source == None
    {
      var id := counter.GetAndIncrement();
      instanceId := id;
      source := None;
    }

    method GetInstanceId() returns (id: int)
      ensures id == instanceId
    {
      id := instanceId;
    }

    method GetSource() returns (s: Option<ClusterSource>)
      ensures s == source
    {
      s := source;
    }

    method SetSource(s: Option<ClusterSource>)
      modifies this
      ensures source == s
    {
      source := s;
    }

    /** inErrorState(): false without a source, otherwise the source's own error state. */
    predicate InErrorState()
      reads this, if source.Some? then {source.value} else {}
      ensures InErrorState() ==> source.Some?
      ensures source.Some? ==> (InErrorState() <==> source.value.errorState)
    {
      source.Some? && source.value.InErrorState()
    }
  }

  /** The ids that `k` constructions in a row receive from a counter at `c`. */
  function IdsFrom(c: int, k: nat): (ids: seq<int>)
    requires IsInt(c)
    ensures |ids| == k
    ensures k > 0 ==> ids[0] == c
    decreases k
  {
    if k == 0 then [] else [c] + IdsFrom(AddInt(c, 1), k - 1)
  }

  /** The counter's value after `n` getAndIncrement() calls from `c`. */
  function Advance(c: int, n: nat): (v: int)
    requires IsInt(c)
    ensures IsInt(v)
    ensures IsInt(c + n) ==> v == c + n
    decreases n
  {
    if n == 0 then c else Advance(AddInt(c, 1), n - 1)
  }

  /** One more call moves the counter one more step. */
  lemma {:induction false} AdvanceLast(c: int, n: nat)
    requires IsInt(c)
    ensures Advance(c, n + 1) == AddInt(Advance(c, n), 1)
    decreases n
  {
    if n > 0 {
      AdvanceLast(AddInt(c, 1), n - 1);
    }
  }

  /** The i-th of the ids is the counter's value after i calls. */
  lemma {:induction false} IdsFromAt(c: int, k: nat)
    requires IsInt(c)
    ensures forall i | 0 <= i < k :: IdsFrom(c, k)[i] == Advance(c, i)
    decreases k
  {
    if k > 0 {
      IdsFromAt(AddInt(c, 1), k - 1);
      forall i | 0 < i < k ensures IdsFrom(c, k)[i] == Advance(c, i) {
        assert IdsFrom(c, k)[i] == IdsFrom(AddInt(c, 1), k - 1)[i - 1];
      }
    }
  }

  /** As long as the counter does not pass Integer.MAX_VALUE, the i-th construction gets c + i. */
  lemma {:induction false} IdsCountUp(c: int, k: nat)
    requires IsInt(c) && c + k <= IntMax + 1
    ensures forall i | 0 <= i < k :: IdsFrom(c, k)[i] == c + i
    decreases k
  {
    if k > 1 {
      var rest := IdsFrom(AddInt(c, 1), k - 1);
      assert AddInt(c, 1) == c + 1;
      IdsCountUp(c + 1, k - 1);
      assert IdsFrom(c, k) == [c] + rest;
    }
  }

  /** From a zero counter, the k-th instance gets id k - 1. */
  lemma KthInstanceId(k: nat)
    requires 1 <= k <= IntMax + 1
    ensures IdsFrom(0, k)[k - 1] == k - 1
  {
    IdsCountUp(0, k);
  }

  /** Before the counter wraps, ids taken in sequence strictly increase and so are pairwise distinct. */
  lemma IdsIncreasing(c: int, k: nat)
    requires IsInt(c) && c + k <= IntMax + 1
    ensures forall i, j | 0 <= i < j < k :: IdsFrom(c, k)[i] < IdsFrom(c, k)[j]
    ensures forall i, j | 0 <= i < k && 0 <= j < k && i != j :: IdsFrom(c, k)[i] != IdsFrom(c, k)[j]
  {
    IdsCountUp(c, k);
  }

  /** Past Integer.MAX_VALUE the counter wraps: the next instance gets Integer.MIN_VALUE. */
  lemma IdsWrap()
    ensures IdsFrom(IntMax, 2) == [IntMax, IntMin]
  {
  }

  /** Constructions in a row take the ids IdsFrom describes. */
  method ConstructTwo(counter: InstanceIdCounter) returns (a: EmbeddedSDC, b: EmbeddedSDC)
    requires counter.Valid()
    modifies counter
    ensures [a.instanceId, b.instanceId] == IdsFrom(old(counter.value), 2)
    ensures a.source == None && b.source == None
  {
    a := new EmbeddedSDC(counter);
    b := new EmbeddedSDC(counter);
  }

  /**
   * `k` constructions in a row: the i-th instance gets the i-th id IdsFrom
   * describes, and the counter ends `k` steps on. Before the counter passes
   * Integer.MAX_VALUE the ids are c, c + 1, ... and pairwise distinct.
   */
  method ConstructMany(counter: InstanceIdCounter, k: nat) returns (sdcs: seq<EmbeddedSDC>)
    requires counter.Valid()
    modifies counter
    ensures counter.Valid() && counter.value == Advance(old(counter.value), k)
    ensures |sdcs| == k
    ensures forall i | 0 <= i < k :: sdcs[i].instanceId == IdsFrom(old(counter.value), k)[i]
    ensures forall i | 0 <= i < k :: fresh(sdcs[i]) && sdcs[i].source == None
    ensures old(counter.value) + k <= IntMax + 1 ==>
      (forall i | 0 <= i < k :: sdcs[i].instanceId == old(counter.value) + i)
      && (forall i, j | 0 <= i < j < k :: sdcs[i].instanceId < sdcs[j].instanceId)
  {
    ghost var c0 := counter.value;
    sdcs := [];
    while |sdcs| < k
      invariant |sdcs| <= k
      invariant counter.Valid() && counter.value == Advance(c0, |sdcs|)
      invariant forall i | 0 <= i < |sdcs| :: sdcs[i].instanceId == Advance(c0, i)
      invariant forall i | 0 <= i < |sdcs| :: fresh(sdcs[i]) && sdcs[i].source == None
      decreases k - |sdcs|
    {
      var sdc := new EmbeddedSDC(counter);
      AdvanceLast(c0, |sdcs|);
      sdcs := sdcs + [sdc];
    }
    IdsFromAt(c0, k);
    if c0 + k <= IntMax + 1 {
      IdsIncreasing(c0, k);
      IdsCountUp(c0, k);
    }
  }

  /** A source set and read back, and the error state it decides. */
  method SourceRoundTrip(counter: InstanceIdCounter, failing: bool)
    returns (before: bool, src: ClusterSource, got: Option<ClusterSource>, after: bool)
    requires counter.Valid()
    modifies counter
    ensures !before
    ensures fresh(src) && src.errorState == failing
    ensures got == Some(src) && after == src.errorState
  {
    var sdc := new EmbeddedSDC(counter);
    before := sdc.InErrorState();
    src := new ClusterSource(failing);
    sdc.SetSource(Some(src));
    got := sdc.GetSource();
    after := sdc.InErrorState();
  }
}
