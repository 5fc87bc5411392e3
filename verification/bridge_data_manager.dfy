/** `BridgeDataManager` of bridge_data_manager.py: picks a calldata template from the
    explorer's transactions to each bridge contract and writes the wallet's address
    into it.

    A template is the hex text of a call to the function with selector `0x56591d59`
    encoded as in the Solidity Contract ABI Specification: "0x", 8 hex digits of
    selector, then one 64-digit word per static argument. The first argument word starts
    with the destination chain tag (`bssp` or `opsp` in ASCII hex), and the third is a
    static `address`, right-aligned in its word: word 2 spans characters 138..202, so the
    address's 20 bytes are characters 162..202. */
module BridgeDataManager {
  import opened Wrappers
  import opened PyStr

  const OpContract: string := "0xF221750e52aA080835d2957F2Eed0d5d7dDD8C38"
  const BaseContract: string := "0x30A0155082629940d4bd9Cd41D6EF90876a0F1b5"
  /** "0x" followed by the 4-byte function selector. */
  const MethodId: string := "0x56591d59"
  /** Chain tag a template sent to the OP contract carries ("bssp"). */
  const OpChainTag: string := "62737370"
  /** Chain tag a template sent to the Base contract carries ("opsp"). */
  const BaseChainTag: string := "6f707370"
  /** Length of a template: "0x", the selector and seven 64-digit words. */
  const TemplateLength: nat := 458
  /** Length of a "0x"-prefixed 20-byte address. */
  const AddressLength: nat := 42
  /** First character of the address in the third argument word. */
  const AddressStart: nat := 162
  /** Last character of the address (inclusive). */
  const AddressEnd: nat := 201

  const OpKey: string := "OP - BASE"
  const BaseKey: string := "BASE - OP"

  /** What the explorer request produced: a failure (request error, HTTP error status or
      a body that is not an object), or a body whose `items` may be missing; each item is
      the `raw_input` it carries, None where the key is absent. */
  datatype ExplorerReply = Failed | Body(items: Option<seq<Option<string>>>)

  /** The per-item test of `_get_latest_tx_input`, as written. */
  predicate Qualifies(raw: string, contract: string) {
    && raw != ""
    && |raw| == TemplateLength
    && StartsWith(raw, MethodId)
    && ((contract == OpContract && Contains(Slice(raw, 10, 18), OpChainTag))
        || (contract == BaseContract && Contains(Slice(raw, 10, 18), BaseChainTag)))
  }

  /** The tag a contract's templates must carry, None for any other contract. */
  function TagFor(contract: string): Option<string> {
    if contract == OpContract then Some(OpChainTag)
    else if contract == BaseContract then Some(BaseChainTag)
    else None
  }

  /** The test read off the layout: the right length, the selector in front, and the
      contract's own chain tag as the first four bytes of the first argument word. */
  lemma QualifiesExactly(raw: string, contract: string)
    ensures Qualifies(raw, contract) <==>
      && |raw| == TemplateLength
      && raw[..10] == MethodId
      && TagFor(contract).Some?
      && raw[10..18] == TagFor(contract).value
  {
    if |raw| == TemplateLength {
      ContainsSameLength(Slice(raw, 10, 18), OpChainTag);
      ContainsSameLength(Slice(raw, 10, 18), BaseChainTag);
      assert OpContract != BaseContract by { assert OpContract[2] != BaseContract[2]; }
    }
  }

  predicate QualifyingItem(item: Option<string>, contract: string) {
    item.Some? && Qualifies(item.value, contract)
  }

  /** The loop over `items`: the first qualifying `raw_input`. */
  function FirstQualifying(items: seq<Option<string>>, contract: string): (r: Option<string>)
    ensures r.Some? <==> exists i :: 0 <= i < |items| && QualifyingItem(items[i], contract)
    ensures r.Some? ==> exists i :: 0 <= i < |items| && items[i] == r && QualifyingItem(items[i], contract)
                                    && forall j :: 0 <= j < i ==> !QualifyingItem(items[j], contract)
  {
    if |items| == 0 then None
    else if items[0].Some? && Qualifies(items[0].value, contract) then items[0]
    else FirstQualifying(items[1..], contract)
  }

  /** `_get_latest_tx_input(api_url, contract_address)`: the first qualifying item's input,
      None when the request failed, `items` is missing or empty, or nothing qualifies. */
  function LatestTxInput(reply: ExplorerReply, contract: string): (r: Option<string>)
    ensures r.Some? ==> Qualifies(r.value, contract)
    ensures r.Some? <==> reply.Body? && reply.items.Some?
                         && exists i :: 0 <= i < |reply.items.value| && QualifyingItem(reply.items.value[i], contract)
    ensures r.Some? ==> exists i :: 0 <= i < |reply.items.value| && reply.items.value[i] == r
                         && forall j :: 0 <= j < i ==> !QualifyingItem(reply.items.value[j], contract)
    ensures TagFor(contract).None? ==> r.None?
  {
    match reply
    case Failed => None
    case Body(items) =>
      if items.None? || |items.value| == 0 then None
      else FirstQualifying(items.value, contract)
  }

  /** `_update_input_data(input_data, wallet_address)`: the lower-cased address without its
      "0x" replaces characters 162..201 of the template; Python's slices clamp, so the
      result is defined for inputs of any length. */
  function Patch(input: string, wallet: string): (r: string)
    ensures |r| == (if |input| < AddressStart then |input| else AddressStart)
                   + (if |wallet| < 2 then 0 else |wallet| - 2)
                   + (if |input| < AddressEnd + 1 then 0 else |input| - (AddressEnd + 1))
    ensures |input| == TemplateLength && |wallet| == AddressLength ==>
      && |r| == TemplateLength
      && r[..AddressStart] == input[..AddressStart]
      && r[AddressStart..AddressEnd + 1] == Lower(wallet[2..])
      && r[AddressEnd + 1..] == input[AddressEnd + 1..]
  {
    var cleanAddress := Lower(Slice(wallet, 2, |wallet|));
    Slice(input, 0, AddressStart) + cleanAddress + Slice(input, AddressEnd + 1, |input|)
  }

  /** Patching with the same address twice is patching once. */
  lemma PatchIdempotent(input: string, wallet: string)
    requires |input| == TemplateLength && |wallet| == AddressLength
    ensures Patch(Patch(input, wallet), wallet) == Patch(input, wallet)
  {
    var once := Patch(input, wallet);
    var twice := Patch(once, wallet);
    assert twice[..AddressStart] == once[..AddressStart];
    assert twice[AddressStart..AddressEnd + 1] == once[AddressStart..AddressEnd + 1];
    assert twice[AddressEnd + 1..] == once[AddressEnd + 1..];
    assert twice == twice[..AddressStart] + twice[AddressStart..AddressEnd + 1] + twice[AddressEnd + 1..];
    assert once == once[..AddressStart] + once[AddressStart..AddressEnd + 1] + once[AddressEnd + 1..];
  }

  /** A patched template passes exactly the filter the original passed: the selector and
      the chain tag lie before the address. */
  lemma PatchKeepsQualification(input: string, wallet: string, contract: string)
    requires |input| == TemplateLength && |wallet| == AddressLength
    ensures Qualifies(Patch(input, wallet), contract) <==> Qualifies(input, contract)
  {
    var p := Patch(input, wallet);
    assert p[..10] == input[..10] by {
      assert p[..10] == p[..AddressStart][..10];
      assert input[..10] == input[..AddressStart][..10];
    }
    assert p[10..18] == input[10..18] by {
      assert p[10..18] == p[..AddressStart][10..18];
      assert input[10..18] == input[..AddressStart][10..18];
    }
    QualifiesExactly(p, contract);
    QualifiesExactly(input, contract);
  }

  /** `get_updated_bridge_data(wallet_address)`: one entry per direction whose lookup found
      a template, holding that template patched with the wallet's address. */
  function UpdatedBridgeData(opReply: ExplorerReply, baseReply: ExplorerReply, wallet: string): (r: map<string, string>)
    ensures r.Keys <= {OpKey, BaseKey}
    ensures OpKey in r <==> LatestTxInput(opReply, OpContract).Some?
    ensures BaseKey in r <==> LatestTxInput(baseReply, BaseContract).Some?
    ensures OpKey in r ==> r[OpKey] == Patch(LatestTxInput(opReply, OpContract).value, wallet)
    ensures BaseKey in r ==> r[BaseKey] == Patch(LatestTxInput(baseReply, BaseContract).value, wallet)
  {
    var opInput := LatestTxInput(opReply, OpContract);
    var baseInput := LatestTxInput(baseReply, BaseContract);
    var withOp: map<string, string> :=
      if opInput.Some? && opInput.value != "" then map[OpKey := Patch(opInput.value, wallet)] else map[];
    if baseInput.Some? && baseInput.value != "" then withOp[BaseKey := Patch(baseInput.value, wallet)]
    else withOp
  }

  /** Every template handed out is a full-length call to the bridge function for its own
      direction, carrying the wallet's lower-cased address. */
  lemma UpdatedBridgeDataWellFormed(opReply: ExplorerReply, baseReply: ExplorerReply, wallet: string)
    requires |wallet| == AddressLength
    ensures var r := UpdatedBridgeData(opReply, baseReply, wallet);
      && (OpKey in r ==>
            Qualifies(r[OpKey], OpContract) && r[OpKey][AddressStart..AddressEnd + 1] == Lower(wallet[2..]))
      && (BaseKey in r ==>
            Qualifies(r[BaseKey], BaseContract) && r[BaseKey][AddressStart..AddressEnd + 1] == Lower(wallet[2..]))
  {
    var r := UpdatedBridgeData(opReply, baseReply, wallet);
    if OpKey in r {
      PatchKeepsQualification(LatestTxInput(opReply, OpContract).value, wallet, OpContract);
    }
    if BaseKey in r {
      PatchKeepsQualification(LatestTxInput(baseReply, BaseContract).value, wallet, BaseContract);
    }
  }
}
