/**
 * GPU memory and worker-count decisions of the worker pool: `get_vram_info` over the
 * per-device query outcomes and `get_optimal_worker_count` over the host's platform, the
 * presence of torch, CUDA and the CPU count. The device queries themselves (`nvidia-smi`,
 * `torch.cuda`) are inputs.
 */
module Resources {
  import opened Wrappers
  import opened Numeric
  import opened Seqs

  /** Estimated memory per worker, in MB. */
  const VramPerWorker: int := 200

  const MiB: real := 1048576.0

  /** What `torch.cuda` reports for one device, in bytes. */
  datatype TorchMemory = TorchMemory(totalBytes: int, allocatedBytes: int, reservedBytes: int)

  /**
   * The outcome of querying one device: the device name and `nvidia-smi`'s
   * `(total, used, free)` in MB when the command ran and its three fields parsed, else
   * `None`; and the torch fallback, or the message of the exception it raised.
   */
  datatype DeviceProbe = DeviceProbe(name: string, smi: Option<(int, int, int)>, torch: Result<TorchMemory>)

  /** One entry of `devices`: its memory figures, or the error met while querying it. */
  datatype DeviceRecord =
    | DeviceInfo(id: nat, name: string, totalMb: int, usedMb: int, freeMb: int)
    | DeviceError(id: nat, message: string)

  /** The dictionary of `get_vram_info`. */
  datatype VramInfo = Unavailable | Available(devices: seq<DeviceRecord>, totalFreeMb: int)

  /** The record for device `i`: `nvidia-smi` first, then torch (free = total - reserved), then the error. */
  function DeviceRecordOf(i: nat, p: DeviceProbe): (r: DeviceRecord)
    ensures r.id == i
    ensures p.smi.Some? ==> r == DeviceInfo(i, p.name, p.smi.value.0, p.smi.value.1, p.smi.value.2)
    ensures p.smi.None? && p.torch.Ok? ==>
      var m := p.torch.value;
      r == DeviceInfo(i, p.name, Trunc(m.totalBytes as real / MiB), Trunc(m.allocatedBytes as real / MiB),
                      Trunc(m.totalBytes as real / MiB - m.reservedBytes as real / MiB))
    ensures p.smi.None? && p.torch.Ok? && 0 <= p.torch.value.reservedBytes <= p.torch.value.totalBytes ==>
      0 <= r.freeMb <= r.totalMb
    ensures p.smi.None? && p.torch.Err? ==> r == DeviceError(i, p.torch.message)
  {
    match p.smi
    case Some(figures) => DeviceInfo(i, p.name, figures.0, figures.1, figures.2)
    case None =>
      match p.torch
      case Err(e) => DeviceError(i, e)
      case Ok(m) =>
        var totalMb := m.totalBytes as real / MiB;
        var reservedMb := m.reservedBytes as real / MiB;
        assert 0 <= m.reservedBytes <= m.totalBytes ==> 0 <= Trunc(totalMb - reservedMb) <= Trunc(totalMb) by {
          if 0 <= m.reservedBytes <= m.totalBytes {
            TruncMonotone(totalMb - reservedMb, totalMb);
          }
        }
        DeviceInfo(i, p.name, Trunc(totalMb), Trunc(m.allocatedBytes as real / MiB), Trunc(totalMb - reservedMb))
  }

  /** `device.get("free_mb", 0)`. */
  function FreeOf(d: DeviceRecord): int
  {
    if d.DeviceInfo? then d.freeMb else 0
  }

  /** `sum(device.get("free_mb", 0) for device in devices)`. */
  function TotalFree(devices: seq<DeviceRecord>): int
  {
    if devices == [] then 0 else TotalFree(devices[..|devices| - 1]) + FreeOf(devices[|devices| - 1])
  }

  /** Error records add nothing: the total is the sum of the free memory of the devices that answered. */
  lemma {:induction false} TotalFreeSkipsErrors(devices: seq<DeviceRecord>)
    ensures TotalFree(devices) == TotalFree(Filter(devices, IsInfo))
  {
    if devices != [] {
      var init := devices[..|devices| - 1];
      var last := devices[|devices| - 1];
      TotalFreeSkipsErrors(init);
      var f := Filter(devices, IsInfo);
      assert f == Filter(init, IsInfo) + (if IsInfo(last) then [last] else []);
      if IsInfo(last) {
        assert f[..|f| - 1] == Filter(init, IsInfo) && f[|f| - 1] == last;
        assert TotalFree(f) == TotalFree(Filter(init, IsInfo)) + FreeOf(last);
      } else {
        assert f == Filter(init, IsInfo) && FreeOf(last) == 0;
      }
      assert TotalFree(devices) == TotalFree(init) + FreeOf(last);
    }
  }

  /** With every device answering and reporting non-negative free memory, the total is non-negative. */
  lemma {:induction false} TotalFreeNonNegative(devices: seq<DeviceRecord>)
    requires forall i :: 0 <= i < |devices| ==> devices[i].DeviceInfo? && devices[i].freeMb >= 0
    ensures TotalFree(devices) >= 0
  {
    if devices != [] {
      TotalFreeNonNegative(devices[..|devices| - 1]);
    }
  }

  predicate IsInfo(d: DeviceRecord)
  {
    d.DeviceInfo?
  }

  /**
   * `get_vram_info`: nothing on macOS, without torch or without CUDA; otherwise one record
   * per device, in device order, and the total free memory.
   */
  method GetVramInfo(isDarwin: bool, hasTorch: bool, cudaAvailable: bool, probes: seq<DeviceProbe>)
    returns (info: VramInfo)
    ensures isDarwin || !hasTorch || !cudaAvailable <==> info.Unavailable?
    ensures info.Available? ==>
      && |info.devices| == |probes|
      && (forall i :: 0 <= i < |probes| ==> info.devices[i] == DeviceRecordOf(i, probes[i]))
      && info.totalFreeMb == TotalFree(info.devices)
  {
    if isDarwin || !hasTorch || !cudaAvailable {
      return Unavailable;
    }
    var devices: seq<DeviceRecord> := [];
    for i := 0 to |probes|
      invariant |devices| == i
      invariant forall j :: 0 <= j < i ==> devices[j] == DeviceRecordOf(j, probes[j])
    {
      devices := devices + [DeviceRecordOf(i, probes[i])];
    }
    var total := 0;
    for i := 0 to |devices|
      invariant total == TotalFree(devices[..i])
    {
      assert devices[..i + 1][..i] == devices[..i];
      total := total + FreeOf(devices[i]);
    }
    assert devices[..|devices|] == devices;
    info := Available(devices, total);
  }

  /** `vram_info.get("total_free_mb", 0)`. */
  function TotalFreeOf(info: VramInfo): int
  {
    if info.Available? then info.totalFreeMb else 0
  }

  /** `os.cpu_count() or 4`. */
  function CpuCount(count: Option<nat>): (c: nat)
    ensures c >= 1
  {
    if count.None? || count.value == 0 then 4 else count.value
  }

  /** `max(1, cpu_cores - 1)`. */
  function CpuWorkers(count: Option<nat>): (w: int)
    ensures w >= 1 && w >= CpuCount(count) - 1
  {
    Max(1, CpuCount(count) - 1)
  }

  /** `max(1, int(free * 0.8 / 200))`. */
  function VramWorkerLimit(totalFree: int): (w: int)
    ensures w >= 1
  {
    Max(1, Trunc(totalFree as real * 0.8 / VramPerWorker as real))
  }

  /** What checking CUDA yields: unavailable, the check or a later query raised, or the VRAM information. */
  datatype CudaProbe = CudaMissing | CudaRaised | CudaReady(info: VramInfo)

  /** The host as `get_optimal_worker_count` sees it. */
  datatype Host = Host(isDarwin: bool, hasTorch: bool, cpuCount: Option<nat>, cuda: CudaProbe)

  predicate OnVramPath(h: Host)
  {
    !h.isDarwin && h.hasTorch && h.cuda.CudaReady? && TotalFreeOf(h.cuda.info) > 0
  }

  /**
   * `get_optimal_worker_count`: on the VRAM path the least of the VRAM limit, the CPU limit
   * and 16; an exception gives 2; every other path the uncapped CPU limit.
   */
  function GetOptimalWorkerCount(h: Host): (r: int)
    ensures r >= 1
    ensures OnVramPath(h) ==>
      r == Min(Min(VramWorkerLimit(TotalFreeOf(h.cuda.info)), CpuWorkers(h.cpuCount)), 16)
    ensures !h.isDarwin && h.hasTorch && h.cuda.CudaRaised? ==> r == 2
    ensures !OnVramPath(h) && !(!h.isDarwin && h.hasTorch && h.cuda.CudaRaised?) ==> r == CpuWorkers(h.cpuCount)
  {
    if h.isDarwin then CpuWorkers(h.cpuCount)
    else if !h.hasTorch then CpuWorkers(h.cpuCount)
    else match h.cuda
      case CudaRaised => 2
      case CudaMissing => CpuWorkers(h.cpuCount)
      case CudaReady(info) =>
        var free := TotalFreeOf(info);
        if free > 0 then Min(Min(VramWorkerLimit(free), CpuWorkers(h.cpuCount)), 16)
        else CpuWorkers(h.cpuCount)
  }

  /** On the VRAM path the count is capped by 16, by the CPU limit, and grows with the free memory. */
  lemma VramPathBounds(h: Host, more: int)
    requires OnVramPath(h) && more >= TotalFreeOf(h.cuda.info)
    ensures GetOptimalWorkerCount(h) <= 16 && GetOptimalWorkerCount(h) <= CpuWorkers(h.cpuCount)
    ensures GetOptimalWorkerCount(h) <= GetOptimalWorkerCount(h.(cuda := CudaReady(Available([], more))))
  {
    var free := TotalFreeOf(h.cuda.info);
    TruncMonotone(free as real * 0.8 / 200.0, more as real * 0.8 / 200.0);
  }

  /** The CPU-only paths are not capped at 16: a 64-core host without CUDA gets 63 workers. */
  lemma CpuPathUncapped()
    ensures GetOptimalWorkerCount(Host(false, true, Some(64), CudaMissing)) == 63
  {
  }
}
