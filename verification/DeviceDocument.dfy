/**
 * The per-user document of the `user-devices` collection and the two writes the
 * device store makes to it.
 *
 * `updateDevice` calls `setData` with `merge: true` on
 * `{userId: uid, devices: {deviceId: record}}`, so the `devices` field is a map
 * keyed by the device identifier: the write sets `userId` and the one entry
 * `devices.<deviceId>`, creating the document when it is missing and keeping every
 * other entry. `deleteDevice` removes the field path `devices.<deviceId>` and
 * nothing else; the document itself is never removed.
 */
module DeviceDocument {
  import opened Wrappers

  /** The platform tag written into every record. */
  const DeviceType: string := "iOS"

  /** What the host reports about this installation: vendor identifier, device name, OS string. */
  datatype Descriptor = Descriptor(deviceId: string, name: string, os: string)

  /** One entry of a user's `devices` map. */
  datatype Device = Device(deviceId: string, fcmToken: string, name: string, os: string, deviceType: string)

  /** A document of the collection: the owner's id and the devices keyed by device id. */
  datatype UserDevices = UserDevices(userId: string, devices: map<string, Device>)

  /** The collection, documents keyed by user id. */
  type Collection = map<string, UserDevices>

  /** A write the store asks for; the device is always the local one. */
  datatype Write = Upsert(userId: string, token: string) | Delete(userId: string)

  /** The record `createDevice` builds for this device and a token. */
  function CreateDevice(desc: Descriptor, token: string): (r: Device)
    ensures r.deviceId == desc.deviceId && r.fcmToken == token
    ensures r.name == desc.name && r.os == desc.os && r.deviceType == "iOS"
  {
    Device(desc.deviceId, token, desc.name, desc.os, DeviceType)
  }

  /** The whole document `createUserDevices` builds: the owner and this one device. */
  function CreateUserDevices(userId: string, desc: Descriptor, token: string): (doc: UserDevices)
    ensures doc.userId == userId && KeyedByDevice(doc)
    ensures doc.devices.Keys == {desc.deviceId} && doc.devices[desc.deviceId] == CreateDevice(desc, token)
  {
    UserDevices(userId, map[desc.deviceId := CreateDevice(desc, token)])
  }

  /** The effect of `updateDevice`: a merging set of `userId` and `devices.<deviceId>`. */
  function UpdateDevice(c: Collection, desc: Descriptor, userId: string, token: string): (r: Collection)
    ensures r.Keys == c.Keys + {userId}
    ensures r[userId].userId == userId
    ensures desc.deviceId in r[userId].devices
    ensures r[userId].devices[desc.deviceId] == CreateDevice(desc, token)
    ensures userId in c ==> r[userId].devices.Keys == c[userId].devices.Keys + {desc.deviceId}
    ensures userId !in c ==> r[userId].devices.Keys == {desc.deviceId}
    ensures userId in c ==> forall id :: id in c[userId].devices && id != desc.deviceId ==>
                                         r[userId].devices[id] == c[userId].devices[id]
    ensures forall u :: u in c && u != userId ==> r[u] == c[u]
  {
    var prior := if userId in c then c[userId].devices else map[];
    c[userId := UserDevices(userId, prior[desc.deviceId := CreateDevice(desc, token)])]
  }

  /** The effect of `deleteDevice`: the field `devices.<deviceId>` is removed; a missing document stays missing. */
  function DeleteDevice(c: Collection, deviceId: string, userId: string): (r: Collection)
    ensures r.Keys == c.Keys
    ensures userId in c ==> r[userId].userId == c[userId].userId
    ensures userId in c ==> r[userId].devices.Keys == c[userId].devices.Keys - {deviceId}
    ensures userId in c ==> forall id :: id in r[userId].devices ==>
                                         r[userId].devices[id] == c[userId].devices[id]
    ensures forall u :: u in c && u != userId ==> r[u] == c[u]
  {
    if userId in c then
      c[userId := UserDevices(c[userId].userId, c[userId].devices - {deviceId})]
    else
      c
  }

  function ApplyWrite(c: Collection, desc: Descriptor, w: Write): Collection
  {
    match w
    case Upsert(u, t) => UpdateDevice(c, desc, u, t)
    case Delete(u) => DeleteDevice(c, desc.deviceId, u)
  }

  /** The collection after the writes of `ws`, applied in order. */
  function ApplyWrites(c: Collection, desc: Descriptor, ws: seq<Write>): Collection
    decreases |ws|
  {
    if ws == [] then c else ApplyWrites(ApplyWrite(c, desc, ws[0]), desc, ws[1..])
  }

  /** Every record sits under its own device id: at most one record per device. */
  predicate KeyedByDevice(doc: UserDevices)
  {
    forall id :: id in doc.devices ==> doc.devices[id].deviceId == id
  }

  /** Every document carries its own user id and is keyed by device. */
  predicate WellFormed(c: Collection)
  {
    forall u :: u in c ==> c[u].userId == u && KeyedByDevice(c[u])
  }

  /** This device is registered for `userId` with exactly the record built from `token`. */
  predicate Registered(c: Collection, desc: Descriptor, userId: string, token: string)
  {
    userId in c && desc.deviceId in c[userId].devices
    && c[userId].devices[desc.deviceId] == CreateDevice(desc, token)
  }

  /** The first upsert for a user writes exactly the document `createUserDevices` builds. */
  lemma FirstUpdateCreatesUserDevices(c: Collection, desc: Descriptor, userId: string, token: string)
    requires userId !in c
    ensures UpdateDevice(c, desc, userId, token) == c[userId := CreateUserDevices(userId, desc, token)]
  {
  }

  /** An upsert leaves this device registered with the new token. */
  lemma UpdateDeviceRegisters(c: Collection, desc: Descriptor, userId: string, token: string)
    ensures Registered(UpdateDevice(c, desc, userId, token), desc, userId, token)
  {
  }

  /** Upserting the same token twice is the same as upserting it once. */
  lemma UpdateDeviceIdempotent(c: Collection, desc: Descriptor, userId: string, token: string)
    ensures UpdateDevice(UpdateDevice(c, desc, userId, token), desc, userId, token)
         == UpdateDevice(c, desc, userId, token)
  {
    UpdateDeviceLastWins(c, desc, userId, token, token);
  }

  /** A later upsert of the same device replaces the earlier one: only the last token counts. */
  lemma UpdateDeviceLastWins(c: Collection, desc: Descriptor, userId: string, t1: string, t2: string)
    ensures UpdateDevice(UpdateDevice(c, desc, userId, t1), desc, userId, t2)
         == UpdateDevice(c, desc, userId, t2)
  {
    var prior := if userId in c then c[userId].devices else map[];
    var e1, e2 := CreateDevice(desc, t1), CreateDevice(desc, t2);
    assert prior[desc.deviceId := e1][desc.deviceId := e2] == prior[desc.deviceId := e2];
  }

  /** Deleting twice is the same as deleting once. */
  lemma DeleteDeviceIdempotent(c: Collection, deviceId: string, userId: string)
    ensures DeleteDevice(DeleteDevice(c, deviceId, userId), deviceId, userId)
         == DeleteDevice(c, deviceId, userId)
  {
    if userId in c {
      var ds := c[userId].devices;
      assert ds - {deviceId} - {deviceId} == ds - {deviceId};
    }
  }

  /** Deleting a device that is not there, or from a missing document, changes nothing. */
  lemma DeleteAbsentIsNoOp(c: Collection, deviceId: string, userId: string)
    requires userId !in c || deviceId !in c[userId].devices
    ensures DeleteDevice(c, deviceId, userId) == c
  {
    if userId in c {
      assert c[userId].devices - {deviceId} == c[userId].devices;
    }
  }

  /**
   * Two devices of one user upserting in either order give the same document, and
   * both of them are registered afterwards: no write of one device loses the other.
   */
  lemma UpdatesOfDistinctDevicesCommute(c: Collection, d1: Descriptor, t1: string, d2: Descriptor, t2: string, userId: string)
    requires d1.deviceId != d2.deviceId
    ensures UpdateDevice(UpdateDevice(c, d1, userId, t1), d2, userId, t2)
         == UpdateDevice(UpdateDevice(c, d2, userId, t2), d1, userId, t1)
    ensures Registered(UpdateDevice(UpdateDevice(c, d1, userId, t1), d2, userId, t2), d1, userId, t1)
    ensures Registered(UpdateDevice(UpdateDevice(c, d1, userId, t1), d2, userId, t2), d2, userId, t2)
  {
    var prior := if userId in c then c[userId].devices else map[];
    var e1, e2 := CreateDevice(d1, t1), CreateDevice(d2, t2);
    assert prior[d1.deviceId := e1][d2.deviceId := e2] == prior[d2.deviceId := e2][d1.deviceId := e1];
  }

  /**
   * Signing out after a first registration removes exactly what the registration
   * added: the other devices are as before, and the document stays with its owner.
   * When the document already existed with its owner's id, the collection is exactly
   * what it was before the upsert.
   */
  lemma DeleteUndoesFirstUpdate(c: Collection, desc: Descriptor, userId: string, token: string)
    requires userId in c ==> c[userId].userId == userId && desc.deviceId !in c[userId].devices
    ensures DeleteDevice(UpdateDevice(c, desc, userId, token), desc.deviceId, userId)
         == c[userId := UserDevices(userId, if userId in c then c[userId].devices else map[])]
    ensures userId in c ==> DeleteDevice(UpdateDevice(c, desc, userId, token), desc.deviceId, userId) == c
  {
    var prior := if userId in c then c[userId].devices else map[];
    assert prior[desc.deviceId := CreateDevice(desc, token)] - {desc.deviceId} == prior;
  }

  lemma ApplyWritePreservesWellFormed(c: Collection, desc: Descriptor, w: Write)
    requires WellFormed(c)
    ensures WellFormed(ApplyWrite(c, desc, w))
  {
  }

  /** However many writes are applied, each document keeps its owner and at most one record per device. */
  lemma {:induction false} ApplyWritesPreservesWellFormed(c: Collection, desc: Descriptor, ws: seq<Write>)
    requires WellFormed(c)
    ensures WellFormed(ApplyWrites(c, desc, ws))
    decreases |ws|
  {
    if ws != [] {
      ApplyWritePreservesWellFormed(c, desc, ws[0]);
      ApplyWritesPreservesWellFormed(ApplyWrite(c, desc, ws[0]), desc, ws[1..]);
    }
  }
}
