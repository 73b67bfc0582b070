/** Device memory. */
module Memory {
  // Reservations made per dispatched group, and what each device has left.

  import opened Types
  import opened MapSum

  datatype Reservation = Reservation(device: nat, bytes: nat)
  datatype DeviceMemory = DeviceMemory(capacity: nat, reserved: nat, headroomFloor: nat)
  datatype Memory = Memory(
    reservations: map<nat, Reservation>, devices: map<nat, DeviceMemory>, nextReservation: nat)

  const Empty: Memory := Memory(map[], map[], 1)

  function Device(m: Memory, device: nat): DeviceMemory {
    if device in m.devices then m.devices[device] else DeviceMemory(0, 0, 0)
  }

  /** A device keeps the largest capacity ever advertised for it. */
  function Advertise(m: Memory, device: nat, bytes: nat, floor: nat): Memory {
    var d := Device(m, device);
    m.(devices := m.devices[device := DeviceMemory(if d.capacity < bytes then bytes else d.capacity, d.reserved,
      floor)])
  }

  /** Whether a group's growth may be reserved; capacity zero means unlimited. */
  predicate HasRoom(m: Memory, device: nat, growth: nat) {
    var d := Device(m, device);
    var headroom := if d.capacity > d.reserved then d.capacity - d.reserved else 0;
    d.capacity == 0 || (growth <= headroom && (d.headroomFloor == 0 || d.headroomFloor <= headroom))
  }

  /** There is room if the size is unknown or zero, or growth and floor each fit beside what is reserved. */
  lemma RoomExactly(m: Memory, device: nat, growth: nat)
    ensures HasRoom(m, device, growth) <==>
      (device in m.devices ==>
        var d := m.devices[device];
        || d.capacity == 0
        || (&& (growth == 0 || d.reserved + growth <= d.capacity)
            && (d.headroomFloor == 0 || d.reserved + d.headroomFloor <= d.capacity)))
  {
  }

  function Reserve(m: Memory, device: nat, growth: nat): Memory {
    var d := Device(m, device);
    Memory(m.reservations[m.nextReservation := Reservation(device, growth)],
           m.devices[device := d.(reserved := (d.reserved + growth) % TWO64)],
           m.nextReservation + 1)
  }

  /** Gives a reservation back. Releasing an unknown or already released one does nothing. */
  function Release(m: Memory, id: nat): Memory {
    if id == NULL || id !in m.reservations then m else
      var r := m.reservations[id];
      m.(reservations := m.reservations - {id},
         devices := if r.device in m.devices then
                      var d := m.devices[r.device];
                      m.devices[r.device := d.(reserved := if d.reserved >= r.bytes then d.reserved - r.bytes else 0)]
                    else m.devices)
  }

  // ---------------------------------------------------------------------------
  // Accounting

  function BytesOn(device: nat): Reservation -> nat {
    (r: Reservation) => if r.device == device then r.bytes else 0
  }

  /** Bytes held on a device by the live reservations. */
  ghost function Held(m: Memory, device: nat): nat {
    Total(m.reservations, BytesOn(device))
  }

  /** Every device has a real capacity, and its counter is the sum of its live reservations. */
  ghost predicate Balanced(m: Memory) {
    && (forall d | d in m.devices ::
          0 < m.devices[d].capacity < TWO64 && m.devices[d].reserved == Held(m, d) <= m.devices[d].capacity)
    && (forall id | id in m.reservations :: 1 <= id < m.nextReservation && m.reservations[id].device in m.devices)
    && 1 <= m.nextReservation
  }

  lemma AdvertiseBalanced(m: Memory, device: nat, bytes: nat, floor: nat)
    requires Balanced(m) && 0 < bytes < TWO64
    ensures Balanced(Advertise(m, device, bytes, floor))
  {
    var m' := Advertise(m, device, bytes, floor);
    if device !in m.devices {
      NothingHeld(m.reservations, device);
    }
    assert forall d :: Held(m', d) == Held(m, d);
  }

  lemma {:induction false} NothingHeld(rs: map<nat, Reservation>, device: nat)
    requires forall id | id in rs :: rs[id].device != device
    ensures Total(rs, BytesOn(device)) == 0
    decreases |rs|
  {
    if rs != map[] {
      var k :| k in rs;
      TotalTake(rs, BytesOn(device), k);
      NothingHeld(rs - {k}, device);
    }
  }

  lemma ReserveBalanced(m: Memory, device: nat, growth: nat)
    requires Balanced(m) && device in m.devices && HasRoom(m, device, growth)
    ensures Balanced(Reserve(m, device, growth))
    ensures Device(Reserve(m, device, growth), device).reserved == Device(m, device).reserved + growth
  {
    var m', d := Reserve(m, device, growth), m.devices[device];
    assert d.reserved + growth <= d.capacity;
    SmallMod(d.reserved + growth);
    forall e | e in m'.devices
      ensures m'.devices[e].reserved == Held(m', e)
    {
      ReserveHeld(m, device, growth, e);
    }
  }

  lemma ReserveHeld(m: Memory, device: nat, growth: nat, e: nat)
    requires m.nextReservation !in m.reservations
    ensures Held(Reserve(m, device, growth), e) == Held(m, e) + if e == device then growth else 0
  {
    TotalPut(m.reservations, BytesOn(e), m.nextReservation, Reservation(device, growth));
  }

  lemma SmallMod(x: nat)
    requires x < TWO64
    ensures x % TWO64 == x
  {
  }

  /** A release takes the bytes off the counter of their device, and no counter below zero. */
  lemma ReleasedExactly(m: Memory, id: nat)
    ensures var m' := Release(m, id);
      if id == NULL || id !in m.reservations then m' == m else
        var r := m.reservations[id];
        && m'.reservations == m.reservations - {id} && m'.nextReservation == m.nextReservation
        && (forall d | d in m.devices && d != r.device :: d in m'.devices && m'.devices[d] == m.devices[d])
        && (r.device in m.devices ==>
              && r.device in m'.devices && m'.devices[r.device].capacity == m.devices[r.device].capacity
              && m'.devices[r.device].headroomFloor == m.devices[r.device].headroomFloor
              && (r.bytes < m.devices[r.device].reserved ==>
                    m'.devices[r.device].reserved + r.bytes == m.devices[r.device].reserved)
              && (m.devices[r.device].reserved <= r.bytes ==> m'.devices[r.device].reserved == 0))
  {
  }

  /** The counter always covers what is released, so the clamp to zero is never taken. */
  lemma ReleaseBalanced(m: Memory, id: nat)
    requires Balanced(m)
    ensures Balanced(Release(m, id))
    ensures id != NULL && id in m.reservations ==>
      var r := m.reservations[id];
      && r.device in m.devices && r.bytes <= m.devices[r.device].reserved
      && Device(Release(m, id), r.device).reserved == m.devices[r.device].reserved - r.bytes
    ensures Release(Release(m, id), id) == Release(m, id)
  {
    if id != NULL && id in m.reservations {
      var m' := Release(m, id);
      forall d
        ensures Held(m, d) == Held(m', d) + BytesOn(d)(m.reservations[id])
      {
        TotalTake(m.reservations, BytesOn(d), id);
      }
      assert m.devices[m.reservations[id].device].reserved == Held(m, m.reservations[id].device);
    }
  }
}
