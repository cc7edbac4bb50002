/** The NAME as an object: every setter rewrites its field of the 64 bits in place. */
module NameObject {
  import opened Codec = NameCodec

  class DeviceName {
    var raw: bv64

    /** The constructor from a payload gathers the bytes one after the other. */
    constructor FromPayload(payload: seq<bv8>)
      requires |payload| == 8
      ensures raw == FromBytes(payload) && Bytes(raw) == payload
    {
      raw := 0;
      new;
      raw := raw | (payload[0] as bv64);
      ghost var r0 := raw;
      assert Adds(0, payload[0] as bv64, r0);
      raw := raw | ((payload[1] as bv64) << 8);
      ghost var r1 := raw;
      assert Adds(r0, (payload[1] as bv64) << 8, r1);
      raw := raw | ((payload[2] as bv64) << 16);
      ghost var r2 := raw;
      assert Adds(r1, (payload[2] as bv64) << 16, r2);
      raw := raw | ((payload[3] as bv64) << 24);
      ghost var r3 := raw;
      assert Adds(r2, (payload[3] as bv64) << 24, r3);
      raw := raw | ((payload[4] as bv64) << 32);
      ghost var r4 := raw;
      assert Adds(r3, (payload[4] as bv64) << 32, r4);
      raw := raw | ((payload[5] as bv64) << 40);
      ghost var r5 := raw;
      assert Adds(r4, (payload[5] as bv64) << 40, r5);
      raw := raw | ((payload[6] as bv64) << 48);
      ghost var r6 := raw;
      assert Adds(r5, (payload[6] as bv64) << 48, r6);
      raw := raw | ((payload[7] as bv64) << 56);
      ghost var r7 := raw;
      assert Adds(r6, (payload[7] as bv64) << 56, r7);
      Gathered(payload, r0, r1, r2, r3, r4, r5, r6, r7);
      FromBytesRoundTrip(payload);
    }

    method AssignIdentity(v: bv32)
      modifies this
      ensures raw == Apply(old(raw), Identity(v))
      ensures Assigns(old(raw), Identity(v))
    {
      ghost var before := raw;
      raw := Replace(raw, 0x0000_0000_001F_FFFF, v as bv64);
      IdentityAssigns(before, v);
    }

    method AssignManufacturer(v: bv16)
      modifies this
      ensures raw == Apply(old(raw), Manufacturer(v))
      ensures Assigns(old(raw), Manufacturer(v))
    {
      ghost var before := raw;
      raw := Replace(raw, 0x0000_0000_FFE0_0000, (v as bv64) << 21);
      ManufacturerAssigns(before, v);
    }

    method AssignEcuInstance(v: bv8)
      modifies this
      ensures raw == Apply(old(raw), EcuInstance(v))
      ensures Assigns(old(raw), EcuInstance(v))
    {
      ghost var before := raw;
      raw := Replace(raw, 0x0000_0007_0000_0000, (v as bv64) << 32);
      EcuInstanceAssigns(before, v);
    }

    method AssignFunctionInstance(v: bv8)
      modifies this
      ensures raw == Apply(old(raw), FunctionInstance(v))
      ensures Assigns(old(raw), FunctionInstance(v))
    {
      ghost var before := raw;
      raw := Replace(raw, 0x0000_00F8_0000_0000, (v as bv64) << 35);
      FunctionInstanceAssigns(before, v);
    }

    method AssignFunction(v: bv8)
      modifies this
      ensures raw == Apply(old(raw), Function(v))
      ensures Assigns(old(raw), Function(v))
    {
      ghost var before := raw;
      raw := Replace(raw, 0x0000_FF00_0000_0000, (v as bv64) << 40);
      FunctionAssigns(before, v);
    }

    method AssignDeviceClass(v: bv8)
      modifies this
      ensures raw == Apply(old(raw), DeviceClass(v))
      ensures Assigns(old(raw), DeviceClass(v))
    {
      ghost var before := raw;
      raw := Replace(raw, 0x00FE_0000_0000_0000, (v as bv64) << 49);
      DeviceClassAssigns(before, v);
    }

    method AssignDeviceClassInstance(v: bv8)
      modifies this
      ensures raw == Apply(old(raw), DeviceClassInstance(v))
      ensures Assigns(old(raw), DeviceClassInstance(v))
    {
      ghost var before := raw;
      raw := Replace(raw, 0x0F00_0000_0000_0000, (v as bv64) << 56);
      DeviceClassInstanceAssigns(before, v);
    }

    method AssignIndustryGroup(v: bv8)
      modifies this
      ensures raw == Apply(old(raw), IndustryGroup(v))
      ensures Assigns(old(raw), IndustryGroup(v))
    {
      ghost var before := raw;
      raw := Replace(raw, 0x7000_0000_0000_0000, (v as bv64) << 60);
      IndustryGroupAssigns(before, v);
    }

    method AssignSelfConfig(v: bv8)
      modifies this
      ensures raw == Apply(old(raw), SelfConfig(v))
      ensures Assigns(old(raw), SelfConfig(v))
    {
      ghost var before := raw;
      raw := Replace(raw, 0x8000_0000_0000_0000, (v as bv64) << 63);
      SelfConfigAssigns(before, v);
    }
  }
}
