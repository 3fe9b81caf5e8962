/** The per-region VM capability catalog the intake builds from a SKU listing. */
module Capabilities {
  import opened AzureTypes

  /** The capabilities of one SKU by name; a later capability of the same name wins. */
  function CapabilityMap(caps: seq<Capability>): map<string, string> {
    if caps == [] then map[]
    else
      var last := caps[|caps| - 1];
      CapabilityMap(caps[..|caps| - 1])[last.name := last.value]
  }

  /** The catalog of a SKU listing, one entry per SKU name; a later SKU of the same name
      replaces the earlier one entirely. */
  function CapsOf(skus: seq<Sku>): VMCapabilities {
    if skus == [] then map[]
    else
      var last := skus[|skus| - 1];
      CapsOf(skus[..|skus| - 1])[last.name := CapabilityMap(last.capabilities)]
  }

  /** The capability names of a SKU are exactly the names in its list. */
  lemma {:induction false} CapabilityMapKeys(caps: seq<Capability>)
    ensures CapabilityMap(caps).Keys == set c | c in caps :: c.name
  {
    if caps != [] {
      var init := caps[..|caps| - 1];
      assert caps == init + [caps[|caps| - 1]];
      CapabilityMapKeys(init);
    }
  }

  /** The VM types of the catalog are exactly the SKU names of the listing. */
  lemma {:induction false} CapsOfKeys(skus: seq<Sku>)
    ensures CapsOf(skus).Keys == set k | k in skus :: k.name
  {
    if skus != [] {
      var init := skus[..|skus| - 1];
      assert skus == init + [skus[|skus| - 1]];
      CapsOfKeys(init);
    }
  }

  /** The value of a capability is the one its last occurrence gives. */
  lemma {:induction false} CapabilityMapLastWins(caps: seq<Capability>, i: int)
    requires 0 <= i < |caps|
    requires forall j :: i < j < |caps| ==> caps[j].name != caps[i].name
    ensures caps[i].name in CapabilityMap(caps) && CapabilityMap(caps)[caps[i].name] == caps[i].value
  {
    if i < |caps| - 1 {
      CapabilityMapLastWins(caps[..|caps| - 1], i);
    }
  }

  /** The capabilities of a VM type are those of the last SKU with that name. */
  lemma {:induction false} CapsOfLastWins(skus: seq<Sku>, i: int)
    requires 0 <= i < |skus|
    requires forall j :: i < j < |skus| ==> skus[j].name != skus[i].name
    ensures skus[i].name in CapsOf(skus) && CapsOf(skus)[skus[i].name] == CapabilityMap(skus[i].capabilities)
  {
    if i < |skus| - 1 {
      CapsOfLastWins(skus[..|skus| - 1], i);
    }
  }

  /** The catalog is non-empty exactly when the listing is. */
  lemma CapsOfNonEmpty(skus: seq<Sku>)
    ensures |CapsOf(skus)| > 0 <==> |skus| > 0
  {
    CapsOfKeys(skus);
    if |skus| > 0 {
      assert skus[0].name in CapsOf(skus);
    }
  }

  /** The nested loop over the SKU listing and each SKU's capabilities. */
  method CollectCapabilities(skus: seq<Sku>) returns (vmcaps: VMCapabilities)
    ensures vmcaps == CapsOf(skus)
  {
    vmcaps := map[];
    var i := 0;
    while i < |skus|
      invariant 0 <= i <= |skus|
      invariant vmcaps == CapsOf(skus[..i])
    {
      var item := skus[i];
      ghost var before := vmcaps;
      vmcaps := vmcaps[item.name := map[]];
      var j := 0;
      while j < |item.capabilities|
        invariant 0 <= j <= |item.capabilities|
        invariant vmcaps == before[item.name := CapabilityMap(item.capabilities[..j])]
      {
        var v := item.capabilities[j];
        assert item.capabilities[..j + 1][..j] == item.capabilities[..j];
        vmcaps := vmcaps[item.name := vmcaps[item.name][v.name := v.value]];
        j := j + 1;
      }
      assert item.capabilities[..j] == item.capabilities;
      assert skus[..i + 1][..i] == skus[..i];
      i := i + 1;
    }
    assert skus[..i] == skus;
  }
}
