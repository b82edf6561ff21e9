// Hik-Connect: the door-latch lock entities, their names and ids, and how
// many are created per camera (lock.py).

module HikLock {
  import opened Common

  /** Seconds after an unlock at which the latch is taken to close again. */
  const DoorLatchUnlockedFor := 5

  datatype Camera = Camera(id: string, name: string, channel: int)

  /** A device as the coordinator reports it: its cameras and, per channel, its number of locks. */
  datatype Device = Device(id: string, serial: string, cameras: seq<Camera>, locks: map<int, nat>)

  /** What a lock entity is created from. */
  datatype LockSpec = LockSpec(device: Device, camera: Camera, index: nat)

  /** `locks.get(channel, 0)`. */
  function LockCount(d: Device, c: Camera): nat
  {
    if c.channel in d.locks then d.locks[c.channel] else 0
  }

  /** The locks of one camera, by index. */
  function CameraLocks(d: Device, c: Camera): (r: seq<LockSpec>)
    ensures |r| == LockCount(d, c)
    ensures forall i :: 0 <= i < |r| ==> r[i] == LockSpec(d, c, i)
  {
    seq(LockCount(d, c), i requires 0 <= i => LockSpec(d, c, i))
  }

  /** The locks of the first `|cameras|` cameras of a device. */
  function DeviceLocks(d: Device, cameras: seq<Camera>): seq<LockSpec>
  {
    if |cameras| == 0 then [] else DeviceLocks(d, cameras[..|cameras| - 1]) + CameraLocks(d, cameras[|cameras| - 1])
  }

  /** The lock entities `async_setup_entry` creates, device by device and camera by camera. */
  function AllLocks(devices: seq<Device>): seq<LockSpec>
  {
    if |devices| == 0 then [] else AllLocks(devices[..|devices| - 1]) + DeviceLocks(devices[|devices| - 1], devices[|devices| - 1].cameras)
  }

  /** A device's lock entities are exactly its cameras' channels' locks; a channel without locks gets none. */
  lemma {:induction false} DeviceLocksMembership(d: Device, cameras: seq<Camera>)
    ensures forall l: LockSpec :: l in DeviceLocks(d, cameras) <==>
              l.device == d && l.camera in cameras && l.index < LockCount(d, l.camera)
  {
    if |cameras| > 0 {
      var prefix := cameras[..|cameras| - 1];
      var last := cameras[|cameras| - 1];
      DeviceLocksMembership(d, prefix);
      assert cameras == prefix + [last];
      forall l: LockSpec | l.device == d && l.camera in cameras && l.index < LockCount(d, l.camera)
        ensures l in DeviceLocks(d, cameras)
      {
        if l.camera !in prefix {
          assert l == CameraLocks(d, last)[l.index];
        }
      }
    }
  }

  /** Every created lock belongs to a listed device and camera, within that channel's lock count, and every such lock is created. */
  lemma {:induction false} AllLocksMembership(devices: seq<Device>)
    ensures forall l: LockSpec :: l in AllLocks(devices) <==>
              l.device in devices && l.camera in l.device.cameras && l.index < LockCount(l.device, l.camera)
  {
    if |devices| > 0 {
      var prefix := devices[..|devices| - 1];
      var last := devices[|devices| - 1];
      AllLocksMembership(prefix);
      DeviceLocksMembership(last, last.cameras);
      assert devices == prefix + [last];
    }
  }

  /** A camera-only device gets no locks. */
  lemma {:induction false} CameraOnlyDeviceHasNoLocks(d: Device, cameras: seq<Camera>)
    requires forall i :: 0 <= i < |cameras| ==> cameras[i].channel !in d.locks
    ensures DeviceLocks(d, cameras) == []
  {
    if |cameras| > 0 {
      CameraOnlyDeviceHasNoLocks(d, cameras[..|cameras| - 1]);
    }
  }

  /** The three loops of `async_setup_entry`. */
  method SetupLocks(devices: seq<Device>) returns (entities: seq<LockSpec>)
    ensures entities == AllLocks(devices)
  {
    entities := [];
    var i := 0;
    while i < |devices|
      invariant 0 <= i <= |devices|
      invariant entities == AllLocks(devices[..i])
    {
      assert devices[..i + 1][..i] == devices[..i];
      entities := AppendDeviceLocks(entities, devices[i]);
      i := i + 1;
    }
    assert devices[..|devices|] == devices;
  }

  /** The camera loop of `async_setup_entry` for one device. */
  method AppendDeviceLocks(entities: seq<LockSpec>, d: Device) returns (r: seq<LockSpec>)
    ensures r == entities + DeviceLocks(d, d.cameras)
  {
    r := entities;
    var j := 0;
    while j < |d.cameras|
      invariant 0 <= j <= |d.cameras|
      invariant r == entities + DeviceLocks(d, d.cameras[..j])
    {
      assert d.cameras[..j + 1][..j] == d.cameras[..j];
      r := AppendCameraLocks(r, d, d.cameras[j]);
      j := j + 1;
    }
    assert d.cameras[..|d.cameras|] == d.cameras;
  }

  /** The innermost loop of `async_setup_entry`: one lock entity per lock of the camera's channel. */
  method AppendCameraLocks(entities: seq<LockSpec>, d: Device, c: Camera) returns (r: seq<LockSpec>)
    ensures r == entities + CameraLocks(d, c)
  {
    r := entities;
    var n := if c.channel in d.locks then d.locks[c.channel] else 0;
    var k := 0;
    while k < n
      invariant 0 <= k <= n
      invariant r == entities + CameraLocks(d, c)[..k]
    {
      assert CameraLocks(d, c)[..k + 1] == CameraLocks(d, c)[..k] + [LockSpec(d, c, k)];
      r := r + [LockSpec(d, c, k)];
      k := k + 1;
    }
    assert CameraLocks(d, c)[..n] == CameraLocks(d, c);
  }

  // ---- the lock entity ------------------------------------------------------------------------

  /** `name`: the camera's name and " lock", numbered from 2 for every lock after the first. */
  function LockName(cameraName: string, index: nat): (r: string)
    ensures HasPrefix(r, cameraName + " lock")
    ensures index == 0 <==> r == cameraName + " lock"
  {
    if index != 0 then cameraName + " lock " + NatToString(index + 1) else cameraName + " lock"
  }

  /** The locks of one camera have different names. */
  lemma NamesAreDistinct(cameraName: string, i: nat, j: nat)
    requires i != j
    ensures LockName(cameraName, i) != LockName(cameraName, j)
  {
    if i != 0 && j != 0 {
      var p := cameraName + " lock ";
      if LockName(cameraName, i) == LockName(cameraName, j) {
        assert NatToString(i + 1) == LockName(cameraName, i)[|p|..];
        assert NatToString(j + 1) == LockName(cameraName, j)[|p|..];
        ParseNatToString(i + 1);
        ParseNatToString(j + 1);
      }
    }
  }

  /** `unique_id`: the domain, device id, camera id and lock index, joined by "-". */
  function LockUniqueId(domain: string, deviceId: string, cameraId: string, index: nat): (r: string)
    ensures HasPrefix(r, domain + "-" + deviceId + "-" + cameraId + "-")
    ensures HasSuffix(r, "-" + NatToString(index))
  {
    domain + "-" + deviceId + "-" + cameraId + "-" + NatToString(index)
  }

  /** The locks of one camera have different unique ids. */
  lemma UniqueIdsAreDistinct(domain: string, deviceId: string, cameraId: string, i: nat, j: nat)
    requires i != j
    ensures LockUniqueId(domain, deviceId, cameraId, i) != LockUniqueId(domain, deviceId, cameraId, j)
  {
    var p := domain + "-" + deviceId + "-" + cameraId + "-";
    if LockUniqueId(domain, deviceId, cameraId, i) == LockUniqueId(domain, deviceId, cameraId, j) {
      assert NatToString(i) == LockUniqueId(domain, deviceId, cameraId, i)[|p|..];
      assert NatToString(j) == LockUniqueId(domain, deviceId, cameraId, j)[|p|..];
      ParseNatToString(i);
      ParseNatToString(j);
    }
  }

  /** The latch: whether it is closed, and the delays of the re-locks scheduled and not yet run. */
  datatype Latch = Latch(isLocked: bool, pending: seq<int>)

  function Locked(s: Latch): Latch
  {
    s.(isLocked := true)
  }

  /** A successful unlock frees the latch and schedules a re-lock. */
  function Unlocked(s: Latch): Latch
  {
    Latch(false, s.pending + [DoorLatchUnlockedFor])
  }

  /** The earliest scheduled re-lock runs. */
  function Relocked(s: Latch): (r: Latch)
    requires s.pending != []
    ensures r.isLocked && |r.pending| == |s.pending| - 1
  {
    Latch(true, s.pending[1..])
  }

  /** Every unlock is undone: once its re-lock runs, the latch is closed, whatever ran before. */
  lemma UnlockIsUndone(s: Latch)
    ensures Unlocked(s).pending[|s.pending|] == DoorLatchUnlockedFor
    ensures !Unlocked(s).isLocked && Relocked(Unlocked(s)).isLocked
  {
  }

  class Lock {
    const device: Device
    const camera: Camera
    const index: nat
    var isLocked: bool
    /** Delays of the re-locks scheduled by `async_call_later` that have not run yet. */
    var pending: seq<int>

    /** A new lock is taken to be locked. */
    constructor(device: Device, camera: Camera, index: nat)
      ensures this.device == device && this.camera == camera && this.index == index
      ensures isLocked && pending == []
    {
      this.device := device;
      this.camera := camera;
      this.index := index;
      isLocked := true;
      pending := [];
    }

    function State(): Latch
      reads this
    {
      Latch(isLocked, pending)
    }

    /** `async_lock`. */
    method AsyncLock()
      modifies this
      ensures State() == Locked(old(State()))
    {
      isLocked := true;
    }

    /** `async_unlock`: `apiRaises` is whether the service's unlock call raised, which leaves the state alone. */
    method AsyncUnlock(apiRaises: bool) returns (ok: bool)
      modifies this
      ensures ok <==> !apiRaises
      ensures ok ==> State() == Unlocked(old(State()))
      ensures !ok ==> State() == old(State())
    {
      if apiRaises {
        return false;
      }
      isLocked := false;
      pending := pending + [DoorLatchUnlockedFor];
      return true;
    }

    /** `async_open`: the deprecated alias of unlocking. */
    method AsyncOpen(apiRaises: bool) returns (ok: bool)
      modifies this
      ensures ok <==> !apiRaises
      ensures ok ==> State() == Unlocked(old(State()))
      ensures !ok ==> State() == old(State())
    {
      ok := AsyncUnlock(apiRaises);
    }

    /** The scheduled `_lock_later` callback running. */
    method LockLater()
      requires pending != []
      modifies this
      ensures State() == Relocked(old(State()))
    {
      pending := pending[1..];
      AsyncLock();
    }

    function Name(): (r: string)
      reads this
      ensures r == LockName(camera.name, index)
    {
      LockName(camera.name, index)
    }

    /** `domain` is the integration's domain constant. */
    function UniqueId(domain: string): (r: string)
      reads this
      ensures r == LockUniqueId(domain, device.id, camera.id, index)
    {
      LockUniqueId(domain, device.id, camera.id, index)
    }
  }
}
