/**
 * Physical-device scoring and selection of the Vulkan render context.
 * The Vulkan queries (`vkGetPhysicalDeviceProperties`, the queue-family list,
 * `vkEnumeratePhysicalDevices`) become plain input records.
 */
module VulkanDevices {
  import opened Types

  /** `VkQueueFlags`, a 32-bit mask. */
  type QueueFlags = bv32

  const QUEUE_GRAPHICS_BIT: QueueFlags := 0x1

  /** Bonus for `VK_PHYSICAL_DEVICE_TYPE_DISCRETE_GPU`. */
  const DISCRETE_GPU_BONUS: nat := 10000

  /** The largest score any device can get: the bonus plus the largest `uint32_t`. */
  const MAX_DEVICE_SCORE: nat := DISCRETE_GPU_BONUS + 0xFFFF_FFFF

  const INSTANCE_ERROR := "Failed to create Vulkan instance"
  const NO_DEVICES_ERROR := "No physical devices found"
  const UNSUITABLE_ERROR := "All devices found were unsuitable"

  /** `VkPhysicalDeviceType`. */
  datatype DeviceType = Other | IntegratedGpu | DiscreteGpu | VirtualGpu | Cpu

  /**
   * A `VkPhysicalDevice`: its handle, which tells two identical GPUs apart,
   * and what the scoring reads from its properties and queue families.
   */
  datatype PhysicalDevice = PhysicalDevice(
    handle: nat,
    deviceType: DeviceType,
    maxImageDimension2D: uint32,
    queueFamilies: seq<QueueFlags>)

  /** `SQueueFamilyIndices`: whether a graphics family was found, and the index recorded for it. */
  datatype QueueFamilyIndices = QueueFamilyIndices(graphicsFamily: (bool, uint32))

  predicate SupportsGraphics(flags: QueueFlags)
  {
    flags & QUEUE_GRAPHICS_BIT == QUEUE_GRAPHICS_BIT
  }

  predicate HasGraphicsFamily(families: seq<QueueFlags>)
  {
    exists j :: 0 <= j < |families| && SupportsGraphics(families[j])
  }

  /**
   * `find_queue_families`: stops at the first family with the graphics bit.
   * The counter meant to record that family's position is never advanced,
   * so the recorded index is 0 whichever family matched.
   */
  method FindQueueFamilies(families: seq<QueueFlags>) returns (indices: QueueFamilyIndices)
    ensures indices.graphicsFamily.0 <==> HasGraphicsFamily(families)
    ensures indices.graphicsFamily.1 == 0
  {
    indices := QueueFamilyIndices((false, 0));
    var i: uint32 := 0;
    for k := 0 to |families|
      invariant indices == QueueFamilyIndices((false, 0))
      invariant forall j :: 0 <= j < k ==> !SupportsGraphics(families[j])
    {
      if SupportsGraphics(families[k]) {
        indices := QueueFamilyIndices((true, i));
        break;
      }
    }
  }

  /**
   * The score `score_physical_device` gives a device: the discrete-GPU bonus
   * plus the largest 2D image size, or 0 when no queue family can do graphics.
   */
  function DeviceScore(d: PhysicalDevice): (score: nat)
    ensures score <= MAX_DEVICE_SCORE
    ensures !HasGraphicsFamily(d.queueFamilies) ==> score == 0
    ensures HasGraphicsFamily(d.queueFamilies) ==> score >= d.maxImageDimension2D as nat
    ensures score == 0 <==>
      !HasGraphicsFamily(d.queueFamilies) || (d.deviceType != DiscreteGpu && d.maxImageDimension2D == 0)
  {
    if !HasGraphicsFamily(d.queueFamilies) then 0
    else (if d.deviceType == DiscreteGpu then DISCRETE_GPU_BONUS else 0) + d.maxImageDimension2D as nat
  }

  /** The score is accumulated in a `uint64_t`; every step stays in range, so nothing wraps. */
  method ScorePhysicalDevice(device: PhysicalDevice) returns (score: uint64)
    ensures score as nat == DeviceScore(device)
    ensures score as nat <= MAX_DEVICE_SCORE
  {
    score := 0;
    if device.deviceType == DiscreteGpu {
      score := score + 10000;
    }
    score := score + device.maxImageDimension2D as uint64;
    var familyQueue := FindQueueFamilies(device.queueFamilies);
    if familyQueue.graphicsFamily.0 == false {
      score := 0;
    }
  }

  /** The running best score of the selection loop after it has seen `devices`. */
  function BestScore(devices: seq<PhysicalDevice>): nat
  {
    if devices == [] then 0
    else
      var n := |devices| - 1;
      if DeviceScore(devices[n]) > BestScore(devices[..n]) then DeviceScore(devices[n])
      else BestScore(devices[..n])
  }

  /**
   * The position of the device the selection loop holds after it has seen
   * `devices`: a device replaces the current choice only when its score is
   * strictly greater, starting from a best score of 0.
   */
  function SelectedIndex(devices: seq<PhysicalDevice>): (r: Option<nat>)
    ensures r.Some? ==> r.value < |devices|
  {
    if devices == [] then None
    else
      var n := |devices| - 1;
      if DeviceScore(devices[n]) > BestScore(devices[..n]) then Some(n)
      else SelectedIndex(devices[..n])
  }

  /** `k` is the earliest position of a positive, maximal score. */
  ghost predicate IsFirstMaximum(devices: seq<PhysicalDevice>, k: nat)
  {
    && k < |devices|
    && DeviceScore(devices[k]) > 0
    && (forall j :: 0 <= j < k ==> DeviceScore(devices[j]) < DeviceScore(devices[k]))
    && (forall j :: k < j < |devices| ==> DeviceScore(devices[j]) <= DeviceScore(devices[k]))
  }

  ghost predicate AllUnsuitable(devices: seq<PhysicalDevice>)
  {
    forall j :: 0 <= j < |devices| ==> DeviceScore(devices[j]) == 0
  }

  lemma {:induction false} BestScoreIsMaximum(devices: seq<PhysicalDevice>)
    ensures forall j :: 0 <= j < |devices| ==> DeviceScore(devices[j]) <= BestScore(devices)
    ensures BestScore(devices) == 0 || exists j :: 0 <= j < |devices| && DeviceScore(devices[j]) == BestScore(devices)
  {
    if devices != [] {
      var n := |devices| - 1;
      var prefix := devices[..n];
      BestScoreIsMaximum(prefix);
      assert forall j :: 0 <= j < n ==> devices[j] == prefix[j];
    }
  }

  lemma {:induction false} SelectedIndexIsFirstMaximum(devices: seq<PhysicalDevice>)
    ensures SelectedIndex(devices).None? <==> AllUnsuitable(devices)
    ensures SelectedIndex(devices).Some? ==>
      IsFirstMaximum(devices, SelectedIndex(devices).value)
      && DeviceScore(devices[SelectedIndex(devices).value]) == BestScore(devices)
  {
    if devices != [] {
      var n := |devices| - 1;
      var prefix := devices[..n];
      SelectedIndexIsFirstMaximum(prefix);
      BestScoreIsMaximum(prefix);
      BestScoreIsMaximum(devices);
      assert forall j :: 0 <= j < n ==> devices[j] == prefix[j];
      if DeviceScore(devices[n]) <= BestScore(prefix) && SelectedIndex(prefix).None? {
        assert BestScore(prefix) == 0;
      }
    }
  }

  /** There is at most one earliest maximum. */
  lemma FirstMaximumIsUnique(devices: seq<PhysicalDevice>, k: nat, k': nat)
    requires IsFirstMaximum(devices, k) && IsFirstMaximum(devices, k')
    ensures k == k'
  {
  }

  /**
   * The selection loop's choice, stated without the loop: it picks position
   * `k` exactly when `k` holds the earliest of the highest positive scores,
   * and it picks nothing exactly when every device scores 0.
   */
  lemma SelectionIsFirstMaximum(devices: seq<PhysicalDevice>, k: nat)
    ensures SelectedIndex(devices) == Some(k) <==> IsFirstMaximum(devices, k)
    ensures SelectedIndex(devices) == None <==> AllUnsuitable(devices)
  {
    SelectedIndexIsFirstMaximum(devices);
    if IsFirstMaximum(devices, k) {
      assert !AllUnsuitable(devices) by { assert DeviceScore(devices[k]) > 0; }
      FirstMaximumIsUnique(devices, k, SelectedIndex(devices).value);
    }
  }

  /** The comparison is strict, so a later device with an equal score never displaces an earlier one. */
  lemma TieGoesToEarliest(devices: seq<PhysicalDevice>, i: nat, j: nat)
    requires i < j < |devices| && DeviceScore(devices[i]) == DeviceScore(devices[j])
    ensures SelectedIndex(devices) != Some(j)
  {
    SelectedIndexIsFirstMaximum(devices);
  }

  /** An integrated GPU with 4096 against a discrete GPU with 8192: the discrete one wins, 18192 to 4096. */
  lemma DiscreteGpuScenario()
    ensures var devices := [PhysicalDevice(1, IntegratedGpu, 4096, [QUEUE_GRAPHICS_BIT]),
                            PhysicalDevice(2, DiscreteGpu, 8192, [QUEUE_GRAPHICS_BIT])];
            DeviceScore(devices[0]) == 4096 && DeviceScore(devices[1]) == 18192
            && SelectedIndex(devices) == Some(1)
  {
    var devices := [PhysicalDevice(1, IntegratedGpu, 4096, [QUEUE_GRAPHICS_BIT]),
                    PhysicalDevice(2, DiscreteGpu, 8192, [QUEUE_GRAPHICS_BIT])];
    assert SupportsGraphics(devices[0].queueFamilies[0]);
    assert SupportsGraphics(devices[1].queueFamilies[0]);
    assert devices[..1][..0] == [];
    assert devices[..1] == [devices[0]];
  }

  /** Two identical discrete GPUs: the first handle enumerated is the one kept. */
  lemma IdenticalGpusScenario()
    ensures var devices := [PhysicalDevice(7, DiscreteGpu, 16384, [0x6, QUEUE_GRAPHICS_BIT]),
                            PhysicalDevice(9, DiscreteGpu, 16384, [0x6, QUEUE_GRAPHICS_BIT])];
            SelectedIndex(devices) == Some(0) && devices[SelectedIndex(devices).value].handle == 7
  {
    var devices := [PhysicalDevice(7, DiscreteGpu, 16384, [0x6, QUEUE_GRAPHICS_BIT]),
                    PhysicalDevice(9, DiscreteGpu, 16384, [0x6, QUEUE_GRAPHICS_BIT])];
    assert SupportsGraphics(devices[0].queueFamilies[1]);
    assert devices[..1][..0] == [];
    assert devices[..1] == [devices[0]];
  }

  /** The device the selection leaves in place, given the one held before. */
  function Chosen(devices: seq<PhysicalDevice>, before: Option<PhysicalDevice>): Option<PhysicalDevice>
  {
    match SelectedIndex(devices)
    case Some(k) => Some(devices[k])
    case None => before
  }

  class VulkanRenderContext {
    /** `m_physical_device`; `None` is `VK_NULL_HANDLE`. */
    var physicalDevice: Option<PhysicalDevice>
    /** `m_last_error`; once set it is never cleared. */
    var lastError: string

    /** `instanceCreated` is the outcome of `vkCreateInstance`. */
    constructor (instanceCreated: bool)
      ensures physicalDevice == None
      ensures lastError == if instanceCreated then "" else INSTANCE_ERROR
    {
      physicalDevice := None;
      lastError := "";
      if !instanceCreated {
        lastError := INSTANCE_ERROR;
      }
    }

    /** An error is reported exactly when the error string is non-empty. */
    function HasError(): (r: bool)
      reads this
      ensures r <==> |lastError| > 0
    {
      lastError != ""
    }

    /**
     * `Init`, up to device selection. `devices` is what `vkEnumeratePhysicalDevices`
     * reports. The held device is replaced only by a strictly better one and is
     * never reset, so the null-handle check after the loop also sees a device
     * selected by an earlier call.
     */
    method Init(devices: seq<PhysicalDevice>) returns (ok: bool)
      modifies this`physicalDevice, this`lastError
      ensures devices == [] ==>
        !ok && lastError == NO_DEVICES_ERROR && physicalDevice == old(physicalDevice)
      ensures devices != [] ==> physicalDevice == Chosen(devices, old(physicalDevice))
      ensures devices != [] ==> ok == physicalDevice.Some?
      ensures devices != [] && SelectedIndex(devices).Some? ==>
        ok && physicalDevice == Some(devices[SelectedIndex(devices).value])
      ensures devices != [] && AllUnsuitable(devices) ==> physicalDevice == old(physicalDevice)
      ensures ok ==> lastError == old(lastError) && physicalDevice.Some?
      ensures devices != [] && !ok ==> lastError == UNSUITABLE_ERROR
    {
      if |devices| == 0 {
        lastError := NO_DEVICES_ERROR;
        return false;
      }

      var deviceScore: uint64 := 0;
      for k := 0 to |devices|
        invariant deviceScore as nat == BestScore(devices[..k])
        invariant physicalDevice == Chosen(devices[..k], old(physicalDevice))
        invariant lastError == old(lastError)
      {
        var score := ScorePhysicalDevice(devices[k]);
        assert devices[..k + 1][..k] == devices[..k];
        assert devices[..k + 1][k] == devices[k];
        if score > deviceScore {
          physicalDevice := Some(devices[k]);
          deviceScore := score;
        }
      }
      assert devices[..|devices|] == devices;
      SelectedIndexIsFirstMaximum(devices);

      if physicalDevice == None {
        lastError := UNSUITABLE_ERROR;
        return false;
      }
      return true;
    }
  }
}
