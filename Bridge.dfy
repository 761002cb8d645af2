/**
 * The Bridge Flow Composer wizard (src/components/Module3BridgeComposer.tsx):
 * a three-step flow Deposit -> Bridge -> Withdraw over a record of user
 * input and mock transaction hashes.
 */
module Bridge {

  /** The wizard's `bridgeData` record. */
  datatype BridgeData = BridgeData(
    sourceChain: string,
    targetChain: string,
    asset: string,
    amount: string,
    recipient: string,
    depositTxHash: string,
    bridgeTxHash: string,
    withdrawTxHash: string)

  /** The chain selected as source when the wizard opens or is reset. */
  const HomeChain: string := "sui"

  /** The record the wizard starts from and that "Reset Flow" restores. */
  const InitialData: BridgeData := BridgeData(HomeChain, "", "", "", "", "", "", "")

  /** The first and last step numbers of the stepper. */
  const FirstStep: int := 1
  const LastStep: int := 3

  datatype Chain = Chain(id: string, name: string)

  /** The supported chains, in the order the selects list them. */
  const Chains: seq<Chain> := [
    Chain("sui", "Sui"),
    Chain("ethereum", "Ethereum"),
    Chain("polygon", "Polygon"),
    Chain("arbitrum", "Arbitrum")
  ]

  /** The five inputs of step 1, each with its own change handler. */
  datatype InputField = SourceChain | TargetChain | Asset | Amount | Recipient

  /** The value of one step-1 input in `d`. */
  function Input(d: BridgeData, f: InputField): string
  {
    match f
    case SourceChain => d.sourceChain
    case TargetChain => d.targetChain
    case Asset => d.asset
    case Amount => d.amount
    case Recipient => d.recipient
  }

  /** The transaction hash recorded when leaving (or, at 3, completing) `step`. */
  function TxHash(d: BridgeData, step: int): string
    requires FirstStep <= step <= LastStep
  {
    if step == 1 then d.depositTxHash
    else if step == 2 then d.bridgeTxHash
    else d.withdrawTxHash
  }

  /** Does `h` begin with the "0x" prefix every mock hash carries? */
  predicate HasHexPrefix(h: string)
  {
    |h| >= 2 && h[..2] == "0x"
  }

  predicate IsHexDigit(c: char)
  {
    '0' <= c <= '9' || 'a' <= c <= 'f'
  }

  /** JavaScript's `s.substring(start, end)` for `start <= end`: both ends clamp to the length. */
  function JsSubstring(s: string, start: nat, end: nat): (r: string)
    requires start <= end
    ensures |r| == if end <= |s| then end - start else if start <= |s| then |s| - start else 0
    ensures start <= |s| ==> r <= s[start..]
  {
    var b := if end < |s| then end else |s|;
    var a := if start < b then start else b;
    s[a..b]
  }

  /**
   * `generateMockTxHash`: "0x" followed by characters 2 to 65 of the text
   * `randomText` that `Math.random().toString(16)` produced. The random
   * source is a parameter; nothing is promised about the text.
   */
  function MockTxHash(randomText: string): (h: string)
    ensures HasHexPrefix(h) && |h| <= 66
    ensures |randomText| >= 2 ==> h[2..] <= randomText[2..]
    ensures |randomText| >= 2 ==> |h| == if |randomText| < 66 then |randomText| else 66
    ensures |randomText| <= 2 ==> h == "0x"
  {
    "0x" + JsSubstring(randomText, 2, 66)
  }

  /**
   * When the random text has the shape of a hexadecimal fraction ("0."
   * followed by hex digits), the mock hash is "0x" followed by at most 64
   * hex digits; it is shorter whenever the fraction is.
   */
  lemma MockTxHashIsHex(randomText: string)
    requires |randomText| >= 2 && randomText[..2] == "0."
    requires forall i :: 2 <= i < |randomText| ==> IsHexDigit(randomText[i])
    ensures forall i :: 2 <= i < |MockTxHash(randomText)| ==> IsHexDigit(MockTxHash(randomText)[i])
    ensures |MockTxHash(randomText)| == if |randomText| < 66 then |randomText| else 66
  {
  }

  /** A step-1 input handler: `setBridgeData(prev => ({ ...prev, <field>: value }))`. */
  function WithInput(d: BridgeData, f: InputField, value: string): (r: BridgeData)
    ensures Input(r, f) == value
    ensures forall g :: g != f ==> Input(r, g) == Input(d, g)
    ensures forall k :: FirstStep <= k <= LastStep ==> TxHash(r, k) == TxHash(d, k)
  {
    match f
    case SourceChain => d.(sourceChain := value)
    case TargetChain => d.(targetChain := value)
    case Asset => d.(asset := value)
    case Amount => d.(amount := value)
    case Recipient => d.(recipient := value)
  }

  /** The "Initiate Deposit" button's enable condition (its `disabled` negated). */
  predicate CanInitiateDeposit(d: BridgeData): (b: bool)
    ensures b ==> forall f :: f != SourceChain ==> Input(d, f) != ""
    ensures b ==> d.sourceChain == Input(d, SourceChain) && d != InitialData
  {
    d.targetChain != "" && d.asset != "" && d.amount != "" && d.recipient != ""
  }

  /** Leaving step 1 needs every input except the source chain to be non-empty. */
  lemma CanInitiateDepositIff(d: BridgeData)
    ensures CanInitiateDeposit(d) <==> forall f :: f != SourceChain ==> Input(d, f) != ""
  {
    if !CanInitiateDeposit(d) {
      if d.targetChain == "" { assert Input(d, TargetChain) == ""; }
      else if d.asset == "" { assert Input(d, Asset) == ""; }
      else if d.amount == "" { assert Input(d, Amount) == ""; }
      else { assert Input(d, Recipient) == ""; }
    }
  }

  /** A freshly opened or reset wizard cannot leave step 1. */
  lemma InitialCannotInitiate()
    ensures !CanInitiateDeposit(InitialData)
  {
  }

  /**
   * Changing the source chain keeps the target chain, so the two may end up
   * equal and the deposit can still be initiated: "source differs from
   * target" is not an invariant of the wizard.
   */
  lemma SameChainCanBeInitiated(d: BridgeData)
    requires CanInitiateDeposit(d)
    ensures var r := WithInput(d, SourceChain, d.targetChain);
      r.sourceChain == r.targetChain && CanInitiateDeposit(r)
  {
  }

  /** The step `handleNext` moves to: one further while below 3, else unchanged. */
  function NextStep(step: int): (n: int)
    requires FirstStep <= step <= LastStep
    ensures FirstStep <= n <= LastStep
    ensures step <= n <= step + 1
    ensures n == step <==> step == LastStep
  {
    if step < LastStep then step + 1 else step
  }

  /** The record update `handleNext` makes at `step`: the hash of that step becomes `h`. */
  function RecordHash(step: int, d: BridgeData, h: string): (r: BridgeData)
    requires FirstStep <= step <= LastStep
    ensures TxHash(r, step) == h
    ensures forall k :: FirstStep <= k <= LastStep && k != step ==> TxHash(r, k) == TxHash(d, k)
    ensures forall f :: Input(r, f) == Input(d, f)
  {
    if step == 1 then d.(depositTxHash := h)
    else if step == 2 then d.(bridgeTxHash := h)
    else d.(withdrawTxHash := h)
  }

  /**
   * The invariant the wizard keeps: the step is within 1..3, each hash is
   * empty or "0x"-prefixed, the deposit hash is set exactly when step 1 was
   * left, the bridge hash exactly when step 2 was left, and a withdraw hash
   * exists only at step 3.
   */
  predicate ProgressConsistent(step: int, d: BridgeData)
  {
    && FirstStep <= step <= LastStep
    && (d.depositTxHash == "" || HasHexPrefix(d.depositTxHash))
    && (d.bridgeTxHash == "" || HasHexPrefix(d.bridgeTxHash))
    && (d.withdrawTxHash == "" || HasHexPrefix(d.withdrawTxHash))
    && (d.depositTxHash != "" <==> step >= 2)
    && (d.bridgeTxHash != "" <==> step >= 3)
    && (d.withdrawTxHash != "" ==> step == 3)
  }

  lemma InitialIsConsistent()
    ensures ProgressConsistent(FirstStep, InitialData)
  {
  }

  /** One `handleNext` keeps the invariant. */
  lemma AdvanceKeepsProgress(step: int, d: BridgeData, randomText: string)
    requires ProgressConsistent(step, d)
    ensures ProgressConsistent(NextStep(step), RecordHash(step, d, MockTxHash(randomText)))
  {
  }

  /** An input handler keeps the invariant. */
  lemma EditKeepsProgress(step: int, d: BridgeData, f: InputField, value: string)
    requires ProgressConsistent(step, d)
    ensures ProgressConsistent(step, WithInput(d, f, value))
  {
  }

  /** The (step, record) pair after pressing the step's button once per random text. */
  function Advances(step: int, d: BridgeData, randomTexts: seq<string>): (r: (int, BridgeData))
    requires FirstStep <= step <= LastStep
    ensures step <= r.0 <= LastStep
    ensures randomTexts == [] ==> r == (step, d)
    decreases |randomTexts|
  {
    if randomTexts == [] then (step, d)
    else Advances(NextStep(step), RecordHash(step, d, MockTxHash(randomTexts[0])), randomTexts[1..])
  }

  /** Any number of presses keeps the invariant and never touches an input. */
  lemma {:induction false} AdvancesKeepProgress(step: int, d: BridgeData, randomTexts: seq<string>)
    requires ProgressConsistent(step, d)
    ensures ProgressConsistent(Advances(step, d, randomTexts).0, Advances(step, d, randomTexts).1)
    ensures forall f :: Input(Advances(step, d, randomTexts).1, f) == Input(d, f)
    decreases |randomTexts|
  {
    if randomTexts != [] {
      AdvanceKeepsProgress(step, d, randomTexts[0]);
      AdvancesKeepProgress(NextStep(step), RecordHash(step, d, MockTxHash(randomTexts[0])), randomTexts[1..]);
    }
  }

  /** Presses move the step forward one at a time until it reaches 3. */
  lemma {:induction false} AdvancesStep(step: int, d: BridgeData, randomTexts: seq<string>)
    requires FirstStep <= step <= LastStep
    ensures Advances(step, d, randomTexts).0 ==
      if step + |randomTexts| < LastStep then step + |randomTexts| else LastStep
    decreases |randomTexts|
  {
    if randomTexts != [] {
      AdvancesStep(NextStep(step), RecordHash(step, d, MockTxHash(randomTexts[0])), randomTexts[1..]);
    }
  }

  /**
   * At step 3 every press regenerates only the withdraw hash: the step stays
   * at 3, the deposit and bridge hashes and the inputs are kept, and the
   * withdraw hash is the one from the last press.
   */
  lemma {:induction false} RepeatedWithdraw(d: BridgeData, randomTexts: seq<string>)
    requires randomTexts != []
    ensures Advances(LastStep, d, randomTexts).0 == LastStep
    ensures Advances(LastStep, d, randomTexts).1 ==
      d.(withdrawTxHash := MockTxHash(randomTexts[|randomTexts| - 1]))
    decreases |randomTexts|
  {
    var d' := RecordHash(LastStep, d, MockTxHash(randomTexts[0]));
    if |randomTexts| > 1 {
      RepeatedWithdraw(d', randomTexts[1..]);
      assert randomTexts[1..][|randomTexts[1..]| - 1] == randomTexts[|randomTexts| - 1];
    }
  }

  /** Once a press happens at step 3, the withdraw hash is set and "0x"-prefixed. */
  lemma {:induction false} AdvancesSetWithdraw(step: int, d: BridgeData, randomTexts: seq<string>)
    requires FirstStep <= step <= LastStep && step + |randomTexts| > LastStep
    ensures HasHexPrefix(Advances(step, d, randomTexts).1.withdrawTxHash)
    decreases |randomTexts|
  {
    if step == LastStep {
      RepeatedWithdraw(d, randomTexts);
    } else {
      AdvancesSetWithdraw(NextStep(step), RecordHash(step, d, MockTxHash(randomTexts[0])), randomTexts[1..]);
    }
  }

  /** Three presses from a consistent step 1 reach step 3 with all three hashes set. */
  lemma FullFlow(d: BridgeData, randomTexts: seq<string>)
    requires ProgressConsistent(FirstStep, d) && |randomTexts| >= 3
    ensures Advances(FirstStep, d, randomTexts).0 == LastStep
    ensures var r := Advances(FirstStep, d, randomTexts).1;
      HasHexPrefix(r.depositTxHash) && HasHexPrefix(r.bridgeTxHash) && HasHexPrefix(r.withdrawTxHash)
  {
    AdvancesStep(FirstStep, d, randomTexts);
    AdvancesKeepProgress(FirstStep, d, randomTexts);
    AdvancesSetWithdraw(FirstStep, d, randomTexts);
  }

  datatype StepStatus = Completed | Active | Pending

  /** `getStepStatus`: how the stepper shows `step` while `current` is the current step. */
  function GetStepStatus(step: int, current: int): (s: StepStatus)
    ensures s == Completed <==> step < current
    ensures s == Active <==> step == current
    ensures s == Pending <==> step > current
  {
    if step < current then Completed
    else if step == current then Active
    else Pending
  }

  /** For a current step within 1..3, exactly one of the three steps is active. */
  lemma ExactlyOneActive(current: int)
    requires FirstStep <= current <= LastStep
    ensures GetStepStatus(current, current) == Active
    ensures forall k :: FirstStep <= k <= LastStep && GetStepStatus(k, current) == Active ==> k == current
  {
  }

  /** The chains of `cs` other than the one with id `id`, in order. */
  function ChainsExcept(cs: seq<Chain>, id: string): (r: seq<Chain>)
    ensures forall c :: c in r <==> c in cs && c.id != id
    ensures |r| <= |cs|
    ensures forall c: Chain :: c.id != id ==> multiset(r)[c] == multiset(cs)[c]
    ensures (forall c :: c in cs ==> c.id != id) ==> r == cs
  {
    if cs == [] then []
    else
      assert cs == [cs[0]] + cs[1..];
      if cs[0].id == id then ChainsExcept(cs[1..], id)
      else [cs[0]] + ChainsExcept(cs[1..], id)
  }

  /** The target-chain choices offered while `source` is the source chain. */
  function TargetChainOptions(source: string): (r: seq<Chain>)
    ensures forall c :: c in r <==> c in Chains && c.id != source
  {
    ChainsExcept(Chains, source)
  }

  /** An unsupported source leaves all four chains on offer; a supported one removes itself. */
  lemma TargetChainOptionsSize(source: string)
    ensures (forall c :: c in Chains ==> c.id != source) ==> TargetChainOptions(source) == Chains
    ensures source in {"sui", "ethereum", "polygon", "arbitrum"} ==> |TargetChainOptions(source)| == 3
  {
  }

  /** The wizard's state: `currentStep` and `bridgeData`. */
  class Composer {
    var currentStep: int
    var data: BridgeData

    ghost predicate Valid()
      reads this
    {
      ProgressConsistent(currentStep, data)
    }

    /** The wizard as it opens: step 1 and the initial record. */
    constructor ()
      ensures Valid()
      ensures currentStep == FirstStep && data == InitialData
    {
      currentStep := FirstStep;
      data := InitialData;
    }

    /** One step-1 input handler. */
    method Edit(field: InputField, value: string)
      requires Valid()
      modifies this
      ensures Valid()
      ensures currentStep == old(currentStep)
      ensures data == WithInput(old(data), field, value)
    {
      EditKeepsProgress(currentStep, data, field, value);
      data := WithInput(data, field, value);
    }

    /**
     * `handleNext`: record a fresh mock hash for the current step, then move
     * on while below step 3. At step 1 the button is enabled only when the
     * deposit is configured.
     */
    method Advance(randomText: string)
      requires Valid()
      requires currentStep == FirstStep ==> CanInitiateDeposit(data)
      modifies this
      ensures Valid()
      ensures currentStep == NextStep(old(currentStep))
      ensures data == RecordHash(old(currentStep), old(data), MockTxHash(randomText))
    {
      AdvanceKeepsProgress(currentStep, data, randomText);
      var hash := MockTxHash(randomText);
      if currentStep == 1 {
        data := data.(depositTxHash := hash);
      } else if currentStep == 2 {
        data := data.(bridgeTxHash := hash);
      } else if currentStep == 3 {
        data := data.(withdrawTxHash := hash);
      }
      if currentStep < LastStep {
        currentStep := currentStep + 1;
      }
    }

    /** "Reset Flow": back to step 1 and the initial record, from any state. */
    method Reset()
      modifies this
      ensures Valid()
      ensures currentStep == FirstStep && data == InitialData
    {
      currentStep := FirstStep;
      data := InitialData;
    }

    /** The stepper's three statuses, for steps 1, 2 and 3. */
    function Statuses(): (s: seq<StepStatus>)
      reads this
      requires Valid()
      ensures |s| == 3 && s[currentStep - 1] == Active
      ensures forall i :: 0 <= i < |s| && i != currentStep - 1 ==> s[i] != Active
      ensures forall i, j :: 0 <= i < j < |s| && s[j] == Completed ==> s[i] == Completed
      ensures forall i :: 0 <= i < |s| ==>
        (s[i] == Completed <==> i + 1 < currentStep) && (s[i] == Pending <==> i + 1 > currentStep)
    {
      [GetStepStatus(1, currentStep), GetStepStatus(2, currentStep), GetStepStatus(3, currentStep)]
    }

    /** The target-chain choices the step-1 select offers now. */
    function TargetOptions(): (r: seq<Chain>)
      reads this
      ensures forall c :: c in r <==> c in Chains && c.id != data.sourceChain
    {
      TargetChainOptions(data.sourceChain)
    }
  }
}
