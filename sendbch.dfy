/**
 * A model of the Bitcoin Cash send pipeline of src/utils/sendBch.js:
 * selecting the largest unspent output, computing the fee and the change,
 * assembling one input and the outputs in a transaction builder, the early
 * exit on a non-positive balance and the block-explorer link.
 *
 * Amounts are integer satoshis. The network services (balance lookup, UTXO
 * lookup, broadcast) are parameters of SendBch; key derivation, signing and
 * serialisation are not part of this model.
 */
module SendBch {

  datatype Option<T> = None | Some(value: T)

  /** The network the wallet runs on; the source reads it from the environment. */
  datatype Network = Mainnet | Testnet

  /** An unspent output as returned by the UTXO lookup. */
  datatype Utxo = Utxo(txid: string, vout: nat, satoshis: int)

  /** The wallet of the sender: its cash address and its mnemonic phrase. */
  datatype WalletInfo = WalletInfo(cashAddress: string, mnemonic: string)

  datatype TxInput = TxInput(txid: string, vout: nat)

  datatype TxOutput = TxOutput(address: string, value: int)

  /** What the builder holds once every input and output has been added. */
  datatype Transaction = Transaction(network: Network, inputs: seq<TxInput>, outputs: seq<TxOutput>)

  /** The result of one send: the source returns nothing, throws, or returns the link. */
  datatype Outcome =
    | ZeroBalance                            // balance <= 0: silent return, nothing built
    | UndefinedUtxo                          // no UTXO: reading `utxo.satoshis` throws
    | Rejected(tx: Transaction)              // the broadcast threw
    | Sent(tx: Transaction, link: string)    // broadcast accepted, explorer link returned

  // ---------------------------------------------------------------------------
  // Largest-UTXO selection
  // ---------------------------------------------------------------------------

  /**
   * Index k is what the scan starting from an amount of 0 with a strict `>`
   * selects: either the first occurrence of a positive maximum, or index 0
   * when no entry is positive.
   */
  predicate IsSelection(utxos: seq<Utxo>, k: int)
  {
    && 0 <= k < |utxos|
    && (|| (&& utxos[k].satoshis > 0
            && (forall j :: 0 <= j < |utxos| ==> utxos[j].satoshis <= utxos[k].satoshis)
            && (forall j :: 0 <= j < k ==> utxos[j].satoshis < utxos[k].satoshis))
        || (&& k == 0
            && (forall j :: 0 <= j < |utxos| ==> utxos[j].satoshis <= 0)))
  }

  /** k holds a largest amount and no earlier entry holds as much. */
  predicate IsFirstMaximum(utxos: seq<Utxo>, k: int)
  {
    && 0 <= k < |utxos|
    && (forall j :: 0 <= j < |utxos| ==> utxos[j].satoshis <= utxos[k].satoshis)
    && (forall j :: 0 <= j < k ==> utxos[j].satoshis < utxos[k].satoshis)
  }

  /**
   * The linear scan of findBiggestUtxo. On an empty list the source returns
   * `utxos[0]`, which is undefined; here that is None.
   */
  method FindBiggestUtxo(utxos: seq<Utxo>) returns (r: Option<Utxo>)
    ensures r.None? <==> utxos == []
    ensures r.Some? ==> exists k :: IsSelection(utxos, k) && r.value == utxos[k]
  {
    var largestAmount := 0;
    var largestIndex := 0;
    for i := 0 to |utxos|
      invariant forall j :: 0 <= j < i ==> utxos[j].satoshis <= largestAmount
      invariant || (largestAmount == 0 && largestIndex == 0)
                || (&& 0 < largestAmount
                    && largestIndex < i
                    && utxos[largestIndex].satoshis == largestAmount
                    && forall j :: 0 <= j < largestIndex ==> utxos[j].satoshis < largestAmount)
    {
      if utxos[i].satoshis > largestAmount {
        largestAmount := utxos[i].satoshis;
        largestIndex := i;
      }
    }
    if largestIndex < |utxos| {
      assert IsSelection(utxos, largestIndex);
      r := Some(utxos[largestIndex]);
    } else {
      r := None;
    }
  }

  /** The selection is deterministic: at most one index satisfies it. */
  lemma SelectionIsUnique(utxos: seq<Utxo>, k1: int, k2: int)
    requires IsSelection(utxos, k1) && IsSelection(utxos, k2)
    ensures k1 == k2
  {
  }

  /**
   * For amounts that are never negative the selection is exactly the first
   * maximum: a largest amount, ties going to the lowest index.
   */
  lemma SelectionIsFirstMaximum(utxos: seq<Utxo>, k: int)
    requires forall j :: 0 <= j < |utxos| ==> utxos[j].satoshis >= 0
    ensures IsSelection(utxos, k) <==> IsFirstMaximum(utxos, k)
  {
    if IsFirstMaximum(utxos, k) && utxos[k].satoshis <= 0 {
      assert utxos[0].satoshis >= 0;
    }
  }

  /** With non-positive amounts only (negative ones are impossible on chain) index 0 is chosen, largest or not. */
  lemma AllNonPositiveSelectsFirst(utxos: seq<Utxo>)
    requires |utxos| > 0
    requires forall j :: 0 <= j < |utxos| ==> utxos[j].satoshis <= 0
    ensures IsSelection(utxos, 0)
    ensures forall k :: IsSelection(utxos, k) ==> k == 0
  {
  }

  // ---------------------------------------------------------------------------
  // Amounts, fee and change
  // ---------------------------------------------------------------------------

  /**
   * `values.reduce((previous, current) => previous + current, 0)`: a left fold.
   * The source sums the BCH amounts as floats and converts the sum once,
   * while each output converts its own amount; with exact integer satoshis
   * the two agree.
   */
  function Sum(values: seq<int>): (total: int)
    ensures (forall i :: 0 <= i < |values| ==> values[i] >= 0) ==>
              total >= 0 && forall i :: 0 <= i < |values| ==> values[i] <= total
  {
    if values == [] then 0 else Sum(values[..|values| - 1]) + values[|values| - 1]
  }

  /** The total value of a list of outputs, folded the same way. */
  function OutputTotal(outputs: seq<TxOutput>): (total: int)
  {
    if outputs == [] then 0 else OutputTotal(outputs[..|outputs| - 1]) + outputs[|outputs| - 1].value
  }

  lemma {:induction false} SumConcat(a: seq<int>, b: seq<int>)
    ensures Sum(a + b) == Sum(a) + Sum(b)
  {
    if b == [] {
      assert a + b == a;
    } else {
      var b' := b[..|b| - 1];
      assert (a + b)[..|a + b| - 1] == a + b';
      SumConcat(a, b');
    }
  }

  /**
   * The fee: `satoshisPerByte = 1.0 * addresses.length`, then
   * `Math.floor(satoshisPerByte * byteCount)`. `byteCount` is the library's
   * size of a transaction with one P2PKH input and two P2PKH outputs, the
   * same whatever the number of recipients.
   */
  function TxFee(recipientCount: nat, byteCount: nat): (fee: int)
    ensures fee == recipientCount * byteCount
  {
    var satoshisPerByte := 1.0 * (recipientCount as real);
    assert satoshisPerByte * (byteCount as real) == (recipientCount * byteCount) as real;
    (satoshisPerByte * (byteCount as real)).Floor
  }

  /** More recipients never lower the fee. */
  lemma FeeIsMonotonic(n1: nat, n2: nat, byteCount: nat)
    requires n1 <= n2
    ensures TxFee(n1, byteCount) <= TxFee(n2, byteCount)
    ensures byteCount > 0 && n1 < n2 ==> TxFee(n1, byteCount) < TxFee(n2, byteCount)
  {
  }

  /** `originalAmount - satoshisToSend - txFee`, with no check of its sign. */
  function ChangeValue(originalAmount: int, values: seq<int>, recipientCount: nat, byteCount: nat): (change: int)
    ensures change + Sum(values) + recipientCount * byteCount == originalAmount
    ensures change < 0 <==> originalAmount < Sum(values) + recipientCount * byteCount
  {
    originalAmount - Sum(values) - TxFee(recipientCount, byteCount)
  }

  /** One output per recipient, in request order, paying `values[i]` to `addresses[i]`. */
  function RecipientOutputs(addresses: seq<string>, values: seq<int>): (outputs: seq<TxOutput>)
    requires |addresses| <= |values|
    ensures |outputs| == |addresses|
    ensures forall i :: 0 <= i < |addresses| ==> outputs[i] == TxOutput(addresses[i], values[i])
  {
    seq(|addresses|, i requires 0 <= i < |addresses| => TxOutput(addresses[i], values[i]))
  }

  /** The outputs the builder ends with: the recipients, then the change to the sender. */
  function PlannedOutputs(addresses: seq<string>, values: seq<int>, sender: string,
                          originalAmount: int, byteCount: nat): (outputs: seq<TxOutput>)
    requires |addresses| <= |values|
    ensures |outputs| == |addresses| + 1
    ensures forall i :: 0 <= i < |addresses| ==> outputs[i] == TxOutput(addresses[i], values[i])
    ensures outputs[|addresses|].address == sender
    ensures outputs[|addresses|].value == originalAmount - Sum(values) - |addresses| * byteCount
    ensures outputs[|addresses|].value < 0 <==> originalAmount < Sum(values) + |addresses| * byteCount
  {
    RecipientOutputs(addresses, values)
      + [TxOutput(sender, ChangeValue(originalAmount, values, |addresses|, byteCount))]
  }

  /** The recipient outputs carry exactly the amounts of the first |addresses| values. */
  lemma {:induction false} RecipientTotal(addresses: seq<string>, values: seq<int>)
    requires |addresses| <= |values|
    ensures OutputTotal(RecipientOutputs(addresses, values)) == Sum(values[..|addresses|])
  {
    var n := |addresses|;
    if n > 0 {
      var outs := RecipientOutputs(addresses, values);
      assert outs[..n - 1] == RecipientOutputs(addresses[..n - 1], values);
      RecipientTotal(addresses[..n - 1], values);
      assert values[..n][..n - 1] == values[..n - 1];
    }
  }

  /**
   * Value conservation in general: recipients, change and fee add up to the
   * input, except that values beyond the last address are counted in the
   * amount to send without an output of their own, so they go to the miner.
   */
  lemma SurplusValuesGoToFee(addresses: seq<string>, values: seq<int>, sender: string,
                             originalAmount: int, byteCount: nat)
    requires |addresses| <= |values|
    ensures var n := |addresses|;
            OutputTotal(PlannedOutputs(addresses, values, sender, originalAmount, byteCount))
              + TxFee(n, byteCount) + Sum(values[n..]) == originalAmount
  {
    var n := |addresses|;
    var recipients := RecipientOutputs(addresses, values);
    var outs := PlannedOutputs(addresses, values, sender, originalAmount, byteCount);
    assert outs[..|outs| - 1] == recipients;
    RecipientTotal(addresses, values);
    assert values == values[..n] + values[n..];
    SumConcat(values[..n], values[n..]);
  }

  /** With one value per address: the outputs plus the fee equal the input exactly. */
  lemma ValueConservation(addresses: seq<string>, values: seq<int>, sender: string,
                          originalAmount: int, byteCount: nat)
    requires |addresses| == |values|
    ensures OutputTotal(PlannedOutputs(addresses, values, sender, originalAmount, byteCount))
              + TxFee(|addresses|, byteCount) == originalAmount
  {
    SurplusValuesGoToFee(addresses, values, sender, originalAmount, byteCount);
    assert values[|addresses|..] == [];
  }

  /**
   * The scenario of a largest UTXO of 100000 satoshis and a request for
   * 200000: the change output is still planned, with a negative value; the
   * send code makes no check of its own on the sign of the remainder.
   */
  lemma OverspendStillEmitsChange(byteCount: nat)
    ensures var utxos := [Utxo("A", 0, 100000), Utxo("B", 1, 50000)];
            var outs := PlannedOutputs(["recipient"], [200000], "sender", utxos[0].satoshis, byteCount);
            && IsSelection(utxos, 0)
            && |outs| == 2
            && outs[1] == TxOutput("sender", -100000 - byteCount)
  {
  }

  // ---------------------------------------------------------------------------
  // Explorer link
  // ---------------------------------------------------------------------------

  const MainnetExplorer: string := "https://explorer.bitcoin.com/bch/tx/"
  const TestnetExplorer: string := "https://explorer.bitcoin.com/tbch/tx/"

  /** The link the source logs and returns after a successful broadcast. */
  function ExplorerLink(network: Network, txid: string): (link: string)
    ensures network.Mainnet? ==> MainnetExplorer <= link
    ensures network.Testnet? ==> TestnetExplorer <= link
    ensures |link| == |txid| + (if network.Mainnet? then |MainnetExplorer| else |TestnetExplorer|)
    ensures link[(if network.Mainnet? then |MainnetExplorer| else |TestnetExplorer|)..] == txid
  {
    match network
    case Mainnet => MainnetExplorer + txid
    case Testnet => TestnetExplorer + txid
  }

  /** Splits a link back into its network and transaction id. */
  function ParseExplorerLink(link: string): (parts: Option<(Network, string)>)
  {
    if MainnetExplorer <= link then Some((Mainnet, link[|MainnetExplorer|..]))
    else if TestnetExplorer <= link then Some((Testnet, link[|TestnetExplorer|..]))
    else None
  }

  /** The link determines the network and the transaction id. */
  lemma ExplorerLinkRoundTrip(network: Network, txid: string)
    ensures ParseExplorerLink(ExplorerLink(network, txid)) == Some((network, txid))
  {
    var link := ExplorerLink(network, txid);
    match network
    case Mainnet =>
      assert link[|MainnetExplorer|..] == txid;
    case Testnet =>
      assert link[29] == 't' && MainnetExplorer[29] == 'b';
      assert !(MainnetExplorer <= link);
      assert link[|TestnetExplorer|..] == txid;
  }

  lemma ExplorerLinkInjective(n1: Network, t1: string, n2: Network, t2: string)
    requires ExplorerLink(n1, t1) == ExplorerLink(n2, t2)
    ensures n1 == n2 && t1 == t2
  {
    ExplorerLinkRoundTrip(n1, t1);
    ExplorerLinkRoundTrip(n2, t2);
  }

  // ---------------------------------------------------------------------------
  // Transaction builder
  // ---------------------------------------------------------------------------

  /** The library's mutable transaction builder, reduced to its inputs and outputs. */
  class TransactionBuilder {
    const network: Network
    var inputs: seq<TxInput>
    var outputs: seq<TxOutput>

    constructor (network: Network)
      ensures this.network == network && inputs == [] && outputs == []
    {
      this.network := network;
      inputs := [];
      outputs := [];
    }

    method AddInput(txid: string, vout: nat)
      modifies this
      ensures inputs == old(inputs) + [TxInput(txid, vout)]
      ensures outputs == old(outputs)
    {
      inputs := inputs + [TxInput(txid, vout)];
    }

    method AddOutput(address: string, value: int)
      modifies this
      ensures outputs == old(outputs) + [TxOutput(address, value)]
      ensures inputs == old(inputs)
    {
      outputs := outputs + [TxOutput(address, value)];
    }

    /** The unsigned transaction as assembled so far. */
    function Unsigned(): Transaction
      reads this
    {
      Transaction(network, inputs, outputs)
    }
  }

  // ---------------------------------------------------------------------------
  // The send pipeline
  // ---------------------------------------------------------------------------

  /**
   * sendBch. The network results are parameters: `balance` is what the
   * balance lookup returns (in BCH), `utxos` what the UTXO lookup returns,
   * and `broadcast` the transaction id the broadcast returns, None when it
   * throws. `byteCount` is the library's size estimate for one P2PKH input
   * and two P2PKH outputs. Signing and serialisation are not modelled: the
   * transaction that is broadcast is the one the builder holds.
   */
  method SendBch(network: Network, wallet: WalletInfo, addresses: seq<string>, values: seq<int>,
                 balance: real, utxos: seq<Utxo>, byteCount: nat, broadcast: Option<string>)
    returns (outcome: Outcome)
    requires |addresses| <= |values|
    ensures outcome.ZeroBalance? <==> balance <= 0.0
    ensures outcome.UndefinedUtxo? <==> balance > 0.0 && utxos == []
    ensures outcome.Rejected? <==> balance > 0.0 && utxos != [] && broadcast.None?
    ensures outcome.Sent? ==> broadcast.Some? && outcome.link == ExplorerLink(network, broadcast.value)
    ensures (outcome.Rejected? || outcome.Sent?) ==>
              exists k :: && IsSelection(utxos, k)
                          && outcome.tx.network == network
                          && outcome.tx.inputs == [TxInput(utxos[k].txid, utxos[k].vout)]
                          && outcome.tx.outputs == PlannedOutputs(addresses, values, wallet.cashAddress,
                                                                  utxos[k].satoshis, byteCount)
                          && (|addresses| == |values| ==>
                                OutputTotal(outcome.tx.outputs) + TxFee(|addresses|, byteCount)
                                  == utxos[k].satoshis)
  {
    var value := Sum(values);
    var sendAddr := wallet.cashAddress;

    // Return without a result when the balance is not positive.
    if balance <= 0.0 {
      return ZeroBalance;
    }

    var selected := FindBiggestUtxo(utxos);
    var transactionBuilder := new TransactionBuilder(network);
    var satoshisToSend := value;
    if selected.None? {
      return UndefinedUtxo;
    }
    var utxo := selected.value;
    ghost var k :| IsSelection(utxos, k) && utxo == utxos[k];
    var originalAmount := utxo.satoshis;

    transactionBuilder.AddInput(utxo.txid, utxo.vout);

    var txFee := TxFee(|addresses|, byteCount);
    var remainder := originalAmount - satoshisToSend - txFee;

    for i := 0 to |addresses|
      invariant transactionBuilder.inputs == [TxInput(utxo.txid, utxo.vout)]
      invariant |transactionBuilder.outputs| == i
      invariant forall j :: 0 <= j < i ==> transactionBuilder.outputs[j] == TxOutput(addresses[j], values[j])
    {
      transactionBuilder.AddOutput(addresses[i], values[i]);
    }
    assert transactionBuilder.outputs == RecipientOutputs(addresses, values);
    transactionBuilder.AddOutput(sendAddr, remainder);

    var tx := transactionBuilder.Unsigned();
    assert tx.outputs == PlannedOutputs(addresses, values, sendAddr, originalAmount, byteCount);
    if |addresses| == |values| {
      ValueConservation(addresses, values, sendAddr, originalAmount, byteCount);
    }

    match broadcast
    case None =>
      outcome := Rejected(tx);
    case Some(txid) =>
      outcome := Sent(tx, ExplorerLink(network, txid));
  }
}
