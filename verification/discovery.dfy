/**
 * The `discovery` command of `onMessage` (main.js:45-57): the devices the
 * HID layer reports are reduced to one entry per (vendorId, productId)
 * pair, keeping the first device of each pair, in the order reported.
 */
module Discovery {

  /** A device as the HID layer lists it (the fields the adapter reads). */
  datatype HidDevice = HidDevice(vendorId: int, productId: int, product: string, manufacturer: string)

  /** An entry of the discovery result. */
  datatype Entry = Entry(name: string, manufacturer: string, productId: int, vendorId: int)

  function ToEntry(device: HidDevice): (e: Entry)
    ensures e.vendorId == device.vendorId && e.productId == device.productId
    ensures e.name == device.product && e.manufacturer == device.manufacturer
  {
    Entry(device.product, device.manufacturer, device.productId, device.vendorId)
  }

  /** `devices.some(d => d.vendorId == device.vendorId && d.productId == device.productId)` */
  predicate Listed(entries: seq<Entry>, device: HidDevice)
  {
    exists k :: 0 <= k < |entries| && entries[k].vendorId == device.vendorId && entries[k].productId == device.productId
  }

  /** No device before position `i` has the same pair as `found[i]`. */
  predicate IsFirst(found: seq<HidDevice>, i: nat)
    requires i < |found|
  {
    forall j :: 0 <= j < i ==> !(found[j].vendorId == found[i].vendorId && found[j].productId == found[i].productId)
  }

  /** The reference result: the entries of the devices that are the first of their pair, in input order. */
  function FirstOccurrences(found: seq<HidDevice>): seq<Entry>
  {
    if found == [] then []
    else
      FirstOccurrences(found[..|found| - 1])
        + if IsFirst(found, |found| - 1) then [ToEntry(found[|found| - 1])] else []
  }

  /** The discovery loop, as written: scan the devices, append one unless its pair is already listed. */
  method Discover(found: seq<HidDevice>) returns (devices: seq<Entry>)
    ensures devices == FirstOccurrences(found)
  {
    devices := [];
    var i := 0;
    while i < |found|
      invariant 0 <= i <= |found|
      invariant devices == FirstOccurrences(found[..i])
    {
      var device := found[i];
      ListedIffSeen(found[..i], device);
      assert found[..i + 1][..i] == found[..i];
      assert IsFirst(found[..i + 1], i) <==> IsFirst(found, i);
      if !Listed(devices, device) {
        devices := devices + [ToEntry(device)];
      }
      i := i + 1;
    }
    assert found[..|found|] == found;
  }

  /** A pair is listed in the result exactly when some input device has it. */
  lemma {:induction false} ListedIffSeen(found: seq<HidDevice>, device: HidDevice)
    ensures Listed(FirstOccurrences(found), device)
        <==> exists j :: 0 <= j < |found| && found[j].vendorId == device.vendorId && found[j].productId == device.productId
    decreases |found|
  {
    if found != [] {
      var n := |found| - 1;
      var prefix := found[..n];
      ListedIffSeen(prefix, device);
      var r := FirstOccurrences(found);
      var p := FirstOccurrences(prefix);
      if Listed(r, device) {
        var k :| 0 <= k < |r| && r[k].vendorId == device.vendorId && r[k].productId == device.productId;
        if k < |p| {
          assert r[k] == p[k];
          var j :| 0 <= j < |prefix| && prefix[j].vendorId == device.vendorId && prefix[j].productId == device.productId;
          assert found[j] == prefix[j];
        } else {
          assert r[k] == ToEntry(found[n]);
        }
      }
      if exists j :: 0 <= j < |found| && found[j].vendorId == device.vendorId && found[j].productId == device.productId {
        var j :| 0 <= j < |found| && found[j].vendorId == device.vendorId && found[j].productId == device.productId;
        if j < n {
          assert prefix[j] == found[j];
          var k :| 0 <= k < |p| && p[k].vendorId == device.vendorId && p[k].productId == device.productId;
          assert r[k] == p[k];
        } else if IsFirst(found, n) {
          assert r[|p|] == ToEntry(found[n]);
        } else {
          var i :| 0 <= i < n && found[i].vendorId == found[n].vendorId && found[i].productId == found[n].productId;
          assert prefix[i] == found[i];
          var k :| 0 <= k < |p| && p[k].vendorId == device.vendorId && p[k].productId == device.productId;
          assert r[k] == p[k];
        }
      }
    }
  }

  /** No two entries share a (vendorId, productId) pair. */
  predicate DistinctPairs(entries: seq<Entry>)
  {
    forall a, b :: 0 <= a < b < |entries| ==>
      !(entries[a].vendorId == entries[b].vendorId && entries[a].productId == entries[b].productId)
  }

  /** No two entries of the result share a (vendorId, productId) pair. */
  lemma {:induction false} FirstOccurrencesDistinct(found: seq<HidDevice>)
    ensures DistinctPairs(FirstOccurrences(found))
    decreases |found|
  {
    if found != [] {
      var n := |found| - 1;
      FirstOccurrencesDistinct(found[..n]);
      var p := FirstOccurrences(found[..n]);
      var r := FirstOccurrences(found);
      if IsFirst(found, n) {
        ListedIffSeen(found[..n], found[n]);
        assert !Listed(p, found[n]) by {
          forall j | 0 <= j < n
            ensures !(found[..n][j].vendorId == found[n].vendorId && found[..n][j].productId == found[n].productId)
          {
            assert found[..n][j] == found[j];
          }
        }
        forall a, b | 0 <= a < b < |r|
          ensures !(r[a].vendorId == r[b].vendorId && r[a].productId == r[b].productId)
        {
          if b == |p| {
            assert r[a] == p[a] && r[b] == ToEntry(found[n]);
          } else {
            assert r[a] == p[a] && r[b] == p[b];
          }
        }
      } else {
        assert r == p;
      }
    }
  }

  /** Whether a device is the first of its pair does not depend on the devices after it. */
  lemma IsFirstPrefix(found: seq<HidDevice>, n: nat, i: nat)
    requires i < n <= |found|
    ensures IsFirst(found[..n], i) <==> IsFirst(found, i)
  {
    assert forall j :: 0 <= j <= i ==> found[..n][j] == found[j];
  }

  /**
   * The result lists entries in input order: entry `k` is the entry of the
   * device at `idx[k]`, which is the first of its pair, and the positions
   * increase.
   */
  lemma {:induction false} FirstOccurrencesIndices(found: seq<HidDevice>) returns (idx: seq<nat>)
    ensures |idx| == |FirstOccurrences(found)|
    ensures forall k :: 0 <= k < |idx| ==>
      idx[k] < |found| && IsFirst(found, idx[k]) && FirstOccurrences(found)[k] == ToEntry(found[idx[k]])
    ensures forall k, l :: 0 <= k < l < |idx| ==> idx[k] < idx[l]
    decreases |found|
  {
    if found == [] {
      idx := [];
    } else {
      var n := |found| - 1;
      var prefix := found[..n];
      var p := FirstOccurrences(prefix);
      var r := FirstOccurrences(found);
      var pi := FirstOccurrencesIndices(prefix);
      forall k | 0 <= k < |pi|
        ensures pi[k] < n && IsFirst(found, pi[k]) && r[k] == ToEntry(found[pi[k]])
      {
        IsFirstPrefix(found, n, pi[k]);
        assert prefix[pi[k]] == found[pi[k]];
        assert r[k] == p[k];
      }
      idx := pi + if IsFirst(found, n) then [n] else [];
    }
  }
}
