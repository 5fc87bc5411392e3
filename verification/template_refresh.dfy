/** `update_bridge_data` of data_bridge.py: refreshes the two calldata templates
    (keyed "OP - BASE" and "BASE - OP") from the explorer's list of transactions sent
    to each chain's bridge contract. The HTTP replies are parameters. */
module TemplateRefresh {
  import opened Wrappers

  /** The shortest input the refresh accepts as a template. */
  const MinTemplateLength: nat := 100

  /** One entry of the explorer's `items`: the fields the refresh looks at,
      None where the key is absent. */
  datatype ExplorerTx = ExplorerTx(status: Option<string>, rawInput: Option<string>, input: Option<string>)

  /** What one `requests.get` produced: it raised a request error, or it answered with a
      status code and a body whose `items` key may be missing. */
  datatype Reply = RequestError | Answer(statusCode: int, items: Option<seq<ExplorerTx>>)

  datatype Templates = Templates(opToBase: string, baseToOp: string)

  /** `tx.get('raw_input') or tx.get('input')`: the raw input unless it is absent or empty. */
  function InputOf(tx: ExplorerTx): Option<string> {
    if tx.rawInput.Some? && tx.rawInput.value != "" then tx.rawInput else tx.input
  }

  /** A transaction the refresh takes as a template: succeeded (status '1') and carries
      an input of at least `MinTemplateLength` characters. */
  predicate Usable(tx: ExplorerTx) {
    && tx.status == Some("1")
    && InputOf(tx).Some?
    && |InputOf(tx).value| >= MinTemplateLength
  }

  /** The loop over `items`: failed transactions and too-short inputs are skipped, and
      the first usable transaction ends it. */
  function FirstUsable(txs: seq<ExplorerTx>): (r: Option<string>)
    ensures r.Some? <==> exists i :: 0 <= i < |txs| && Usable(txs[i])
    ensures r.Some? ==> exists i :: 0 <= i < |txs| && Usable(txs[i]) && r == InputOf(txs[i])
                                    && forall j :: 0 <= j < i ==> !Usable(txs[j])
  {
    if |txs| == 0 then None
    else if txs[0].status != Some("1") then FirstUsable(txs[1..])
    else
      var inputData := InputOf(txs[0]);
      if inputData.Some? && inputData.value != "" && |inputData.value| >= MinTemplateLength then inputData
      else FirstUsable(txs[1..])
  }

  /** Result of a refresh: the templates afterwards, and the returned flag. */
  datatype RefreshOutcome = RefreshOutcome(templates: Templates, ok: bool)

  /** The refresh of one direction: a non-200 reply or a request error leaves `current`
      alone; a 200 reply replaces it with the first usable input, if any. A 200 reply
      without `items` raises a KeyError, which is not a request error: None here. */
  function RefreshOne(current: string, reply: Reply): (r: Option<string>)
    ensures reply.Answer? && reply.statusCode == 200 && reply.items.None? <==> r.None?
    ensures r.Some? && reply.Answer? && reply.statusCode == 200 ==>
      r.value == FirstUsable(reply.items.value).GetOr(current)
    ensures r.Some? && !(reply.Answer? && reply.statusCode == 200) ==> r.value == current
  {
    match reply
    case RequestError => Some(current)
    case Answer(code, items) =>
      if code != 200 then Some(current)
      else if items.None? then None
      else Some(FirstUsable(items.value).GetOr(current))
  }

  /** `update_bridge_data`: OP first, then Base. A KeyError in the OP step escapes to the
      outer handler, which returns False before Base is fetched. */
  function UpdateBridgeData(t: Templates, opReply: Reply, baseReply: Reply): (r: RefreshOutcome)
    // the OP reply alone decides the OP -> Base template
    ensures RefreshOne(t.opToBase, opReply).Some? ==> r.templates.opToBase == RefreshOne(t.opToBase, opReply).value
    ensures RefreshOne(t.opToBase, opReply).None? ==> r == RefreshOutcome(t, false)
    // the Base reply alone decides the Base -> OP template
    ensures RefreshOne(t.opToBase, opReply).Some? ==>
      r.templates.baseToOp == RefreshOne(t.baseToOp, baseReply).GetOr(t.baseToOp)
    ensures r.ok <==> RefreshOne(t.opToBase, opReply).Some? && RefreshOne(t.baseToOp, baseReply).Some?
  {
    match RefreshOne(t.opToBase, opReply)
    case None => RefreshOutcome(t, false)
    case Some(op) =>
      match RefreshOne(t.baseToOp, baseReply)
      case None => RefreshOutcome(t.(opToBase := op), false)
      case Some(base) => RefreshOutcome(Templates(op, base), true)
  }

  /** A template only ever changes to the input of a usable transaction. */
  lemma RefreshInstallsOnlyUsable(t: Templates, opReply: Reply, baseReply: Reply)
    ensures var r := UpdateBridgeData(t, opReply, baseReply).templates;
      && (r.opToBase != t.opToBase ==>
            opReply.Answer? && opReply.items.Some? && |r.opToBase| >= MinTemplateLength
            && exists i :: 0 <= i < |opReply.items.value| && Usable(opReply.items.value[i])
                           && InputOf(opReply.items.value[i]) == Some(r.opToBase))
      && (r.baseToOp != t.baseToOp ==>
            baseReply.Answer? && baseReply.items.Some? && |r.baseToOp| >= MinTemplateLength
            && exists i :: 0 <= i < |baseReply.items.value| && Usable(baseReply.items.value[i])
                           && InputOf(baseReply.items.value[i]) == Some(r.baseToOp))
  {
    var r := UpdateBridgeData(t, opReply, baseReply).templates;
    if r.opToBase != t.opToBase {
      var found := FirstUsable(opReply.items.value);
      assert found.Some?;
    }
    if r.baseToOp != t.baseToOp {
      var found := FirstUsable(baseReply.items.value);
      assert found.Some?;
    }
  }
}
