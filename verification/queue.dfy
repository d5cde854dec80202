/**
 * Queue-family selection. Every Vulkan device exposes at least one graphics-capable queue family
 * and may expose dedicated compute and transfer families. For each capability the family with the
 * fewest flags that still has it is preferred, and the three choices are made pairwise distinct
 * so that one device-queue create info is emitted per family.
 *
 * Queue flag words are sets of bit positions: `contains` is the subset relation and
 * `count_ones` is the cardinality.
 */
module Queue {
  import opened Common

  newtype Bit = b: int | 0 <= b < 32

  type QueueFlags = set<Bit>

  /** `VK_QUEUE_GRAPHICS_BIT` (0x1) */
  const Graphics: Bit := 0

  /** `VK_QUEUE_COMPUTE_BIT` (0x2) */
  const Compute: Bit := 1

  /** `VK_QUEUE_TRANSFER_BIT` (0x4) */
  const Transfer: Bit := 2

  /** Some family's flags contain the requested flags. */
  predicate AnyQualifies(qfps: seq<QueueFlags>, flags: QueueFlags)
  {
    exists j :: 0 <= j < |qfps| && flags <= qfps[j]
  }

  /**
   * Family `i` is the minimum-capability choice for `flags`: it contains the flags, no family
   * that contains them has fewer flags set, and every earlier one that contains them has more.
   */
  predicate IsMinCaps(qfps: seq<QueueFlags>, flags: QueueFlags, i: nat)
  {
    && i < |qfps| && flags <= qfps[i]
    && (forall j :: 0 <= j < |qfps| && flags <= qfps[j] ==> |qfps[i]| <= |qfps[j]|)
    && (forall j :: 0 <= j < i && flags <= qfps[j] ==> |qfps[i]| < |qfps[j]|)
  }

  /** What `min_caps_family` may return: nothing exactly when no family qualifies, else the minimum. */
  predicate Chosen(qfps: seq<QueueFlags>, flags: QueueFlags, r: Option<nat>)
  {
    (r.None? <==> !AnyQualifies(qfps, flags)) && (r.Some? ==> IsMinCaps(qfps, flags, r.value))
  }

  /** The minimum-capability choice is unique: ties go to the lowest index. */
  lemma MinCapsUnique(qfps: seq<QueueFlags>, flags: QueueFlags, i: nat, j: nat)
    requires IsMinCaps(qfps, flags, i) && IsMinCaps(qfps, flags, j)
    ensures i == j
  {
  }

  /**
   * `min_caps_family`: the scan that keeps the first qualifying family and replaces it only by
   * one with strictly fewer flags set.
   */
  method MinCapsFamily(qfps: seq<QueueFlags>, flags: QueueFlags) returns (found: Option<nat>)
    ensures Chosen(qfps, flags, found)
  {
    var foundFlags: QueueFlags := {};
    found := None;
    var i := 0;
    while i < |qfps|
      invariant 0 <= i <= |qfps|
      invariant found.None? <==> forall j :: 0 <= j < i ==> !(flags <= qfps[j])
      invariant found.Some? ==> found.value < i && foundFlags == qfps[found.value] && IsMinCaps(qfps[..i], flags, found.value)
    {
      var qf := qfps[i];
      if flags <= qf {
        if found.Some? {
          if |foundFlags| > |qf| {
            foundFlags := qf;
            found := Some(i);
          }
        } else {
          foundFlags := qf;
          found := Some(i);
        }
      }
      i := i + 1;
    }
    assert qfps[..i] == qfps;
  }

  /** `QueueFamilies`: the graphics family and the dedicated compute and transfer families, if any. */
  datatype QueueFamilies = QueueFamilies(graphics: nat, compute: Option<nat>, transfer: Option<nat>)

  /** `opt.filter(|i| *i != g)` */
  function Unless(opt: Option<nat>, g: nat): (r: Option<nat>)
    ensures r.Some? <==> opt.Some? && opt.value != g
    ensures r.Some? ==> r.value == opt.value
  {
    if opt.Some? && opt.value != g then opt else None
  }

  /** The three families name three different queue families. */
  predicate PairwiseDistinct(qf: QueueFamilies)
  {
    && (qf.compute.Some? ==> qf.compute.value != qf.graphics)
    && (qf.transfer.Some? ==> qf.transfer.value != qf.graphics)
    && (qf.compute.Some? && qf.transfer.Some? ==> qf.compute.value != qf.transfer.value)
  }

  /**
   * The choices `QueueFamilies::new` stores: the transfer family is dropped when it is the compute
   * family, and then both are dropped when they are the graphics family.
   */
  function Assemble(graphics: nat, compute: Option<nat>, transfer: Option<nat>): (qf: QueueFamilies)
    ensures PairwiseDistinct(qf)
    ensures qf.graphics == graphics
    ensures qf.compute.Some? <==> compute.Some? && compute.value != graphics
    ensures qf.transfer.Some? <==> transfer.Some? && transfer != compute && transfer.value != graphics
    ensures qf.compute.Some? ==> qf.compute == compute
    ensures qf.transfer.Some? ==> qf.transfer == transfer
  {
    var transfer' := if transfer == compute then None else transfer;
    QueueFamilies(graphics, Unless(compute, graphics), Unless(transfer', graphics))
  }

  /**
   * `QueueFamilies::new` over the families' queue flags. A graphics family must exist: the
   * Vulkan specification guarantees one, and the `unwrap` panics without it.
   */
  method NewQueueFamilies(qfps: seq<QueueFlags>) returns (qf: QueueFamilies, ghost compute: Option<nat>, ghost transfer: Option<nat>)
    requires AnyQualifies(qfps, {Graphics})
    ensures IsMinCaps(qfps, {Graphics}, qf.graphics)
    ensures Chosen(qfps, {Compute}, compute) && Chosen(qfps, {Transfer}, transfer)
    ensures qf == Assemble(qf.graphics, compute, transfer)
    ensures PairwiseDistinct(qf)
  {
    var graphics := MinCapsFamily(qfps, {Graphics});
    var computeIndex := MinCapsFamily(qfps, {Compute});
    var transferIndex := MinCapsFamily(qfps, {Transfer});
    qf := Assemble(graphics.value, computeIndex, transferIndex);
    compute, transfer := computeIndex, transferIndex;
  }

  /** The parts of `vk::DeviceQueueCreateInfo` that `queue_cis` fills in. */
  datatype QueueCreateInfo = QueueCreateInfo(queueFamilyIndex: nat, queueCount: nat)

  /** The families present, in the order graphics, compute, transfer. */
  function Present(qf: QueueFamilies): (r: seq<nat>)
    ensures 1 <= |r| <= 3 && r[0] == qf.graphics
  {
    [qf.graphics]
      + (if qf.compute.Some? then [qf.compute.value] else [])
      + (if qf.transfer.Some? then [qf.transfer.value] else [])
  }

  /** `queue_cis`: one create info with one queue per family present. */
  function QueueCis(qf: QueueFamilies): (cis: seq<QueueCreateInfo>)
    ensures |cis| == |Present(qf)|
    ensures forall k :: 0 <= k < |cis| ==> cis[k] == QueueCreateInfo(Present(qf)[k], 1)
  {
    seq(|Present(qf)|, k requires 0 <= k < |Present(qf)| => QueueCreateInfo(Present(qf)[k], 1))
  }

  /**
   * For families built by `QueueFamilies::new`, the create infos start with graphics, cover exactly
   * the families present, and never name a family twice, as the valid usage of
   * `VkDeviceCreateInfo` (VUID-VkDeviceCreateInfo-queueFamilyIndex-02802) requires.
   */
  lemma QueueCisDistinct(qf: QueueFamilies)
    requires PairwiseDistinct(qf)
    ensures var cis := QueueCis(qf);
      && cis[0].queueFamilyIndex == qf.graphics
      && |cis| == 1 + (if qf.compute.Some? then 1 else 0) + (if qf.transfer.Some? then 1 else 0)
      && (forall k, l :: 0 <= k < l < |cis| ==> cis[k].queueFamilyIndex != cis[l].queueFamilyIndex)
      && (qf.compute.Some? ==> cis[1].queueFamilyIndex == qf.compute.value)
      && (qf.transfer.Some? ==> cis[|cis| - 1].queueFamilyIndex == qf.transfer.value)
  {
    var p := Present(qf);
    forall k, l | 0 <= k < l < |p|
      ensures p[k] != p[l]
    {
    }
  }

  /** A queue handle and the command pool created for its family. */
  datatype Queue = Queue(queue: nat, commandPool: nat)

  /** `Queues`: the graphics queue and, where a dedicated family was chosen, its queue. */
  datatype Queues = Queues(graphics: Queue, compute: Option<Queue>, transfer: Option<Queue>, graphicsFamilyIndex: nat)

  /** `Queues::new`; `open` stands for `Queue::new` on the device, which yields a queue per family. */
  function NewQueues(qf: QueueFamilies, open: nat -> Queue): (q: Queues)
    ensures q.graphicsFamilyIndex == qf.graphics && q.graphics == open(qf.graphics)
    ensures q.compute.Some? <==> qf.compute.Some?
    ensures q.compute.Some? ==> q.compute.value == open(qf.compute.value)
    ensures q.transfer.Some? <==> qf.transfer.Some?
    ensures q.transfer.Some? ==> q.transfer.value == open(qf.transfer.value)
  {
    Queues(
      open(qf.graphics),
      if qf.compute.Some? then Some(open(qf.compute.value)) else None,
      if qf.transfer.Some? then Some(open(qf.transfer.value)) else None,
      qf.graphics)
  }

  /** The queue `compute_queue` and `compute_pool` use: the dedicated one, else graphics. */
  function ComputeFallback(q: Queues): Queue
  {
    if q.compute.Some? then q.compute.value else q.graphics
  }

  /** The queue `transfer_queue` and `transfer_pool` use: the dedicated one, else the compute fallback. */
  function TransferFallback(q: Queues): Queue
  {
    if q.transfer.Some? then q.transfer.value else ComputeFallback(q)
  }

  /** The graphics queue, which compute and then transfer work share when they have no family of their own. */
  function GraphicsQueue(q: Queues): (r: nat)
    ensures q.compute.None? ==> r == ComputeFallback(q).queue
    ensures q.compute.None? && q.transfer.None? ==> r == TransferFallback(q).queue
  {
    q.graphics.queue
  }

  /** The graphics command pool, shared in the same way. */
  function GraphicsPool(q: Queues): (r: nat)
    ensures q.compute.None? ==> r == ComputeFallback(q).commandPool
    ensures q.compute.None? && q.transfer.None? ==> r == TransferFallback(q).commandPool
  {
    q.graphics.commandPool
  }

  function ComputeQueue(q: Queues): (r: nat)
    ensures q.compute.None? ==> r == GraphicsQueue(q)
  {
    ComputeFallback(q).queue
  }

  function ComputePool(q: Queues): (r: nat)
    ensures q.compute.None? ==> r == GraphicsPool(q)
  {
    ComputeFallback(q).commandPool
  }

  function TransferQueue(q: Queues): (r: nat)
    ensures q.transfer.None? ==> r == ComputeQueue(q)
  {
    TransferFallback(q).queue
  }

  function TransferPool(q: Queues): (r: nat)
    ensures q.transfer.None? ==> r == ComputePool(q)
  {
    TransferFallback(q).commandPool
  }

  /** The family a role's work lands on: its own dedicated family, else the next role's. */
  function ComputeFamily(qf: QueueFamilies): nat
  {
    if qf.compute.Some? then qf.compute.value else qf.graphics
  }

  function TransferFamily(qf: QueueFamilies): nat
  {
    if qf.transfer.Some? then qf.transfer.value else ComputeFamily(qf)
  }

  /**
   * Through the getters, graphics work goes to the queue and pool of the graphics family, compute
   * work to those of the compute family (or graphics), and transfer work to those of the transfer
   * family (or compute, or graphics).
   */
  lemma GettersFollowFamilies(qf: QueueFamilies, open: nat -> Queue)
    ensures var q := NewQueues(qf, open);
      && GraphicsQueue(q) == open(qf.graphics).queue && GraphicsPool(q) == open(qf.graphics).commandPool
      && ComputeQueue(q) == open(ComputeFamily(qf)).queue && ComputePool(q) == open(ComputeFamily(qf)).commandPool
      && TransferQueue(q) == open(TransferFamily(qf)).queue && TransferPool(q) == open(TransferFamily(qf)).commandPool
  {
  }

  /** `destroy`: the command pools destroyed, graphics first, then each dedicated queue's once. */
  function DestroyedPools(q: Queues): (pools: seq<nat>)
    ensures |pools| == 1 + (if q.compute.Some? then 1 else 0) + (if q.transfer.Some? then 1 else 0)
    ensures pools[0] == q.graphics.commandPool
  {
    [q.graphics.commandPool]
      + (if q.compute.Some? then [q.compute.value.commandPool] else [])
      + (if q.transfer.Some? then [q.transfer.value.commandPool] else [])
  }

  /** Pools are destroyed in the order of the create infos, one per family the device was given. */
  lemma DestroyMatchesCreate(qf: QueueFamilies, open: nat -> Queue)
    ensures var pools := DestroyedPools(NewQueues(qf, open));
      var cis := QueueCis(qf);
      |pools| == |cis| && forall k :: 0 <= k < |cis| ==> pools[k] == open(cis[k].queueFamilyIndex).commandPool
  {
  }
}
