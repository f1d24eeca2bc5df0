/**
 * The device store and the device service of Api/homework/internal/service.
 *
 * `SafeMap` is a dictionary from serial number to device, updated in place;
 * the service sequences store calls and validation. The read-write lock of
 * the store is left out: the model is single-threaded. `net.ParseIP` is
 * the parameter `validIP`.
 */
module DeviceService {
  import opened Wrappers

  datatype Device = Device(serialNum: string, model: string, ip: string)

  /** `model.Device{}`. */
  const ZeroDevice := Device("", "", "")

  /** The five sentinel errors of the service. */
  datatype ServiceError =
    | DeviceAlreadyExists
    | DeviceDoesNotExist
    | InvalidModel
    | InvalidSerialNumber
    | InvalidIPAddress

  /** The text each sentinel was created with. */
  function ErrorText(e: ServiceError): string
  {
    match e
    case DeviceAlreadyExists => "device already exists"
    case DeviceDoesNotExist => "device doesn't exist"
    case InvalidModel => "invalid model"
    case InvalidSerialNumber => "invalid serial number"
    case InvalidIPAddress => "invalid IP address"
  }

  /** Distinct sentinels have distinct texts, so a message names its error. */
  lemma ErrorTextInjective(a: ServiceError, b: ServiceError)
    ensures ErrorText(a) == ErrorText(b) ==> a == b
  {
  }

  /**
   * `verifyDeviceData`: the model is checked first, then the serial number,
   * then the IP address; the first failing check decides the error, and the
   * device is accepted only when all three pass.
   */
  function VerifyDeviceData(d: Device, validIP: string -> bool): (r: Option<ServiceError>)
    ensures r == None <==> d.model != "" && d.serialNum != "" && validIP(d.ip)
    ensures r == Some(InvalidModel) <==> d.model == ""
    ensures r == Some(InvalidSerialNumber) <==> d.model != "" && d.serialNum == ""
    ensures r == Some(InvalidIPAddress) <==> d.model != "" && d.serialNum != "" && !validIP(d.ip)
  {
    if d.model == "" then Some(InvalidModel)
    else if d.serialNum == "" then Some(InvalidSerialNumber)
    else if !validIP(d.ip) then Some(InvalidIPAddress)
    else None
  }

  /** Every entry of the store is filed under its own serial number. */
  ghost predicate KeyedBySerial(m: map<string, Device>)
  {
    forall k :: k in m ==> m[k].serialNum == k
  }

  // ---------------------------------------------------------------------
  // The service's rules as functions of the store's contents

  /** `CreateDevice`: the device is written first, then the duplicate check and the validation decide the error. */
  function Created(m: map<string, Device>, d: Device, validIP: string -> bool): (map<string, Device>, Option<ServiceError>)
  {
    (m[d.serialNum := d], if d.serialNum in m then Some(DeviceAlreadyExists) else VerifyDeviceData(d, validIP))
  }

  /** `GetDevice`. */
  function Looked(m: map<string, Device>, num: string): (Device, Option<ServiceError>)
  {
    if num in m then (m[num], None) else (ZeroDevice, Some(DeviceDoesNotExist))
  }

  /** `DeleteDevice`. */
  function Deleted(m: map<string, Device>, num: string): (map<string, Device>, Option<ServiceError>)
  {
    if num in m then (m - {num}, None) else (m, Some(DeviceDoesNotExist))
  }

  /** `UpdateDevice`: existence first, then validation, and only then the write. */
  function Updated(m: map<string, Device>, d: Device, validIP: string -> bool): (map<string, Device>, Option<ServiceError>)
  {
    if d.serialNum !in m then (m, Some(DeviceDoesNotExist))
    else match VerifyDeviceData(d, validIP)
      case Some(e) => (m, Some(e))
      case None => (m[d.serialNum := d], None)
  }

  /**
   * Because `CreateDevice` stores before it checks, a duplicate overwrites
   * the stored entry although the call reports `ErrDeviceAlreadyExists`,
   * and a new invalid device stays stored although the call reports its
   * validation error.
   */
  lemma CreateStoresBeforeChecking(m: map<string, Device>, d: Device, validIP: string -> bool)
    ensures d.serialNum in m ==>
      Created(m, d, validIP).1 == Some(DeviceAlreadyExists) && Created(m, d, validIP).0[d.serialNum] == d
    ensures d.serialNum !in m && VerifyDeviceData(d, validIP).Some? ==>
      Created(m, d, validIP).1 == VerifyDeviceData(d, validIP) && Looked(Created(m, d, validIP).0, d.serialNum) == (d, None)
    ensures Created(m, d, validIP).1 == None <==> d.serialNum !in m && VerifyDeviceData(d, validIP) == None
  {
  }

  /** `UpdateDevice` never writes unless it succeeds, and never adds a serial number. */
  lemma UpdateWritesOnlyOnSuccess(m: map<string, Device>, d: Device, validIP: string -> bool)
    ensures Updated(m, d, validIP).1 != None ==> Updated(m, d, validIP).0 == m
    ensures Updated(m, d, validIP).1 == None <==> d.serialNum in m && VerifyDeviceData(d, validIP) == None
    ensures Updated(m, d, validIP).0.Keys == m.Keys
  {
  }

  /** A successful update is read back as written, and leaves every other entry as it was. */
  lemma UpdateThenGet(m: map<string, Device>, d: Device, validIP: string -> bool, num: string)
    requires Updated(m, d, validIP).1 == None
    ensures Looked(Updated(m, d, validIP).0, d.serialNum) == (d, None)
    ensures num != d.serialNum ==> Looked(Updated(m, d, validIP).0, num) == Looked(m, num)
  {
  }

  /** Creating a new valid device and deleting it again gives back the original store. */
  lemma CreateThenDelete(m: map<string, Device>, d: Device, validIP: string -> bool)
    requires d.serialNum !in m
    ensures Deleted(Created(m, d, validIP).0, d.serialNum) == (m, None)
  {
    assert Created(m, d, validIP).0 - {d.serialNum} == m;
  }

  /** After a delete the serial number is gone: a second delete and a read both report `ErrDeviceDoesNotExist`. */
  lemma DeleteThenMissing(m: map<string, Device>, num: string)
    ensures Deleted(Deleted(m, num).0, num) == (Deleted(m, num).0, Some(DeviceDoesNotExist))
    ensures Looked(Deleted(m, num).0, num) == (ZeroDevice, Some(DeviceDoesNotExist))
  {
  }

  /** Every operation keeps each entry under its own serial number. */
  lemma OperationsKeepKeys(m: map<string, Device>, d: Device, num: string, validIP: string -> bool)
    requires KeyedBySerial(m)
    ensures KeyedBySerial(Created(m, d, validIP).0)
    ensures KeyedBySerial(Deleted(m, num).0)
    ensures KeyedBySerial(Updated(m, d, validIP).0)
  {
  }

  // ---------------------------------------------------------------------
  // The store

  /** `SafeMap`: devices by serial number. */
  class SafeMap {
    var devices: map<string, Device>

    /** `NewStorage`. */
    constructor ()
      ensures devices == map[]
    {
      devices := map[];
    }

    /** Writes `d` under its serial number, overwriting any entry; true iff the serial number was new. */
    method Add(d: Device) returns (added: bool)
      modifies this
      ensures devices == old(devices)[d.serialNum := d]
      ensures added <==> d.serialNum !in old(devices)
    {
      var present := d.serialNum in devices;
      devices := devices[d.serialNum := d];
      added := !present;
    }

    /** The stored device and true, or the zero device and false; nothing changes. */
    method Get(num: string) returns (d: Device, ok: bool)
      ensures ok <==> num in devices
      ensures ok ==> d == devices[num]
      ensures !ok ==> d == ZeroDevice
    {
      if num in devices {
        d, ok := devices[num], true;
      } else {
        d, ok := ZeroDevice, false;
      }
    }

    /** Removes `num` and answers true, or, when it is absent, changes nothing and answers false. */
    method Del(num: string) returns (ok: bool)
      modifies this
      ensures ok <==> num in old(devices)
      ensures ok ==> devices == old(devices) - {num}
      ensures !ok ==> devices == old(devices)
    {
      if num !in devices {
        return false;
      }
      devices := devices - {num};
      return true;
    }
  }

  // ---------------------------------------------------------------------
  // The service

  /** `storageService` over a `SafeMap`. */
  class StorageService {
    const devices: SafeMap

    /** `NewService`. */
    constructor (s: SafeMap)
      ensures devices == s
    {
      devices := s;
    }

    method GetDevice(num: string) returns (d: Device, err: Option<ServiceError>)
      ensures (d, err) == Looked(devices.devices, num)
      ensures err == None <==> num in devices.devices
      ensures err != None ==> d == ZeroDevice && err == Some(DeviceDoesNotExist)
    {
      var ok;
      d, ok := devices.Get(num);
      if !ok {
        return ZeroDevice, Some(DeviceDoesNotExist);
      }
      err := None;
    }

    method CreateDevice(d: Device, validIP: string -> bool) returns (err: Option<ServiceError>)
      modifies devices
      ensures (devices.devices, err) == Created(old(devices.devices), d, validIP)
    {
      var ok := devices.Add(d);
      if !ok {
        return Some(DeviceAlreadyExists);
      }
      err := VerifyDeviceData(d, validIP);
    }

    method DeleteDevice(num: string) returns (err: Option<ServiceError>)
      modifies devices
      ensures (devices.devices, err) == Deleted(old(devices.devices), num)
    {
      var ok := devices.Del(num);
      if !ok {
        return Some(DeviceDoesNotExist);
      }
      err := None;
    }

    method UpdateDevice(updDev: Device, validIP: string -> bool) returns (err: Option<ServiceError>)
      modifies devices
      ensures (devices.devices, err) == Updated(old(devices.devices), updDev, validIP)
    {
      var _, ok := devices.Get(updDev.serialNum);
      if !ok {
        return Some(DeviceDoesNotExist);
      }
      err := VerifyDeviceData(updDev, validIP);
      if err != None {
        return;
      }
      var _ := devices.Add(updDev);
    }
  }
}
