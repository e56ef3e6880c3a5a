/**
 * Finding the Maestro among the USB devices that libusb lists: the first
 * device, in list order, whose descriptor carries Pololu's vendor id and
 * one of the four Maestro product ids (the 6-, 12-, 18- and 24-channel
 * models).
 */
module Discovery {

  /** libusb's `unsigned short` descriptor fields. */
  newtype u16 = x: int | 0 <= x < 0x1_0000

  /** The two fields of a USB device descriptor that the search looks at. */
  datatype Descriptor = Descriptor(idVendor: u16, idProduct: u16)

  datatype Option<T> = None | Some(value: T)

  /** Pololu's USB vendor id. */
  const VendorId: u16 := 0x1ffb

  /** The product ids the search tries, in the order it tries them. */
  const ProductIds: seq<u16> := [0x0089, 0x008a, 0x008b, 0x008c]

  /** The devices the search accepts, stated without reference to its loops. */
  predicate IsMaestro(d: Descriptor)
  {
    d.idVendor == 0x1ffb && d.idProduct in {0x0089, 0x008a, 0x008b, 0x008c}
  }

  /** Whether a device's descriptor carries exactly the given vendor and product ids. */
  function DeviceMatchesVendorProduct(d: Descriptor, idVendor: u16, idProduct: u16): (b: bool)
    ensures b <==> d == Descriptor(idVendor, idProduct)
  {
    idVendor == d.idVendor && idProduct == d.idProduct
  }

  /** A device matches one of the product ids tried exactly when it is a Maestro. */
  lemma MatchesSomeProduct(d: Descriptor)
    ensures IsMaestro(d) <==>
      exists id :: 0 <= id < |ProductIds| && DeviceMatchesVendorProduct(d, VendorId, ProductIds[id])
  {
    if IsMaestro(d) {
      var id := if d.idProduct == 0x0089 then 0
                else if d.idProduct == 0x008a then 1
                else if d.idProduct == 0x008b then 2
                else 3;
      assert DeviceMatchesVendorProduct(d, VendorId, ProductIds[id]);
    }
  }

  /**
   * The search of `Maestro::initialise`: for each device in list order,
   * for each product id in turn, stop at the first match. The result is
   * the index of the device that the source opens, or None when the
   * search falls through and initialise returns false.
   */
  method FindMaestro(devices: seq<Descriptor>) returns (r: Option<nat>)
    ensures r.None? <==> forall k :: 0 <= k < |devices| ==> !IsMaestro(devices[k])
    ensures r.Some? ==> r.value < |devices| && IsMaestro(devices[r.value])
    ensures r.Some? ==> forall k :: 0 <= k < r.value ==> !IsMaestro(devices[k])
  {
    var i := 0;
    while i < |devices|
      invariant 0 <= i <= |devices|
      invariant forall k :: 0 <= k < i ==> !IsMaestro(devices[k])
    {
      var device := devices[i];
      var id := 0;
      while id < |ProductIds|
        invariant 0 <= id <= |ProductIds|
        invariant forall j :: 0 <= j < id ==> !DeviceMatchesVendorProduct(device, VendorId, ProductIds[j])
      {
        if DeviceMatchesVendorProduct(device, VendorId, ProductIds[id]) {
          MatchesSomeProduct(device);
          return Some(i);
        }
        id := id + 1;
      }
      MatchesSomeProduct(device);
      i := i + 1;
    }
    return None;
  }
}
