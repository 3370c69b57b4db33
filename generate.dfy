/** Building a batch definition from the user's answers (src/generate.rs).
    The interactive prompts are not modelled: what each prompt (and the parse
    that follows it) produced is given as a `Result`, and the ABI encoding of
    the call, done by a library, is a function passed in. What remains is the
    generator's own logic: naming unnamed parameters, collecting one literal
    per parameter, keying the literals by name, and accumulating the
    transactions in prompt order. */
module Generate {
  import opened Results
  import opened Types
  import Decimal

  const UNNAMED_PREFIX := "unnamed_param"

  /** The name given to the unnamed parameter at zero-based position `i`. */
  function SynthesizedName(i: nat): string {
    UNNAMED_PREFIX + Decimal.NatToDecimal(i)
  }

  /** True of the names the renaming can produce. */
  ghost predicate IsSynthesizedName(s: string) {
    exists k: nat :: s == SynthesizedName(k)
  }

  /** Parameter `p`, found at position `i`, after the renaming step. */
  function NameAt(p: Param, i: nat): Param {
    if p.name == "" then p.(name := SynthesizedName(i)) else p
  }

  /** The parameter list after every unnamed parameter has been named. */
  function Renamed(ps: seq<Param>): (r: seq<Param>)
    ensures |r| == |ps|
    ensures forall i :: 0 <= i < |ps| ==> r[i].ty == ps[i].ty && r[i].name != ""
    ensures forall i :: 0 <= i < |ps| && ps[i].name != "" ==> r[i].name == ps[i].name
    ensures forall i :: 0 <= i < |ps| && ps[i].name == "" ==> r[i].name == SynthesizedName(i)
  {
    seq(|ps|, i requires 0 <= i < |ps| => NameAt(ps[i], i))
  }

  /** The rename loop, in place over the parameter array: an empty name at
      position `i` becomes `unnamed_param<i>`, any other name is kept. */
  method NameUnnamedParams(inputs: array<Param>)
    modifies inputs
    ensures inputs[..] == Renamed(old(inputs[..]))
  {
    for i := 0 to inputs.Length
      invariant forall k :: 0 <= k < i ==> inputs[k] == NameAt(old(inputs[k]), k)
      invariant forall k :: i <= k < inputs.Length ==> inputs[k] == old(inputs[k])
    {
      var name := if inputs[i].name == "" then SynthesizedName(i) else inputs[i].name;
      inputs[i] := inputs[i].(name := name);
    }
  }

  /** Renaming a second time changes nothing: no name is empty any more. */
  lemma {:induction false} RenamedIdempotent(ps: seq<Param>)
    ensures Renamed(Renamed(ps)) == Renamed(ps)
  {
    var r := Renamed(ps);
    forall i | 0 <= i < |r|
      ensures Renamed(r)[i] == r[i]
    {
      assert r[i].name != "";
    }
  }

  lemma SynthesizedNameInjective(i: nat, j: nat)
    requires SynthesizedName(i) == SynthesizedName(j)
    ensures i == j
  {
    var a, b := SynthesizedName(i), SynthesizedName(j);
    assert a[|UNNAMED_PREFIX|..] == Decimal.NatToDecimal(i);
    assert b[|UNNAMED_PREFIX|..] == Decimal.NatToDecimal(j);
    Decimal.DecimalInjective(i, j);
  }

  /** When the names the user gave are distinct and none of them looks like a
      synthesized one, every parameter has a distinct name after renaming. */
  lemma RenamedNamesDistinct(ps: seq<Param>)
    requires forall i, j :: 0 <= i < j < |ps| && ps[i].name != "" ==> ps[i].name != ps[j].name
    requires forall i :: 0 <= i < |ps| ==> !IsSynthesizedName(ps[i].name)
    ensures forall i, j :: 0 <= i < j < |ps| ==> Renamed(ps)[i].name != Renamed(ps)[j].name
  {
    var r := Renamed(ps);
    forall i, j | 0 <= i < j < |ps|
      ensures r[i].name != r[j].name
    {
      if ps[i].name == "" && ps[j].name == "" {
        if r[i].name == r[j].name {
          SynthesizedNameInjective(i, j);
        }
      } else if ps[i].name == "" {
        assert r[i].name == SynthesizedName(i);
        assert !IsSynthesizedName(ps[j].name);
      } else if ps[j].name == "" {
        assert r[j].name == SynthesizedName(j);
        assert !IsSynthesizedName(ps[i].name);
      }
    }
  }

  /** The renaming does not make names unique by itself: a parameter the user
      named `unnamed_param1` collides with an unnamed parameter at position 1. */
  lemma RenamedMayCollide()
    ensures var ps := [Param("unnamed_param1", "uint256"), Param("", "address")];
            Renamed(ps)[0].name == Renamed(ps)[1].name
  {
    assert Decimal.NatToDecimal(1) == "1";
  }

  /** The literals the user typed, one prompt per parameter in parameter
      order; `answer(i)` is what the prompt for the parameter at zero-based
      position `i` returned. The first failing prompt ends the collection. */
  function RawFunctionInputs(inputs: seq<Param>, answer: nat -> Result<string>): (r: Result<seq<string>>)
    ensures r.Ok? <==> forall i :: 0 <= i < |inputs| ==> answer(i).Ok?
    ensures r.Ok? ==> |r.value| == |inputs| && forall i :: 0 <= i < |inputs| ==> r.value[i] == answer(i).value
    ensures r.Err? ==> exists i :: 0 <= i < |inputs| && answer(i) == Err(r.error) &&
                                  forall j :: 0 <= j < i ==> answer(j).Ok?
    decreases |inputs|
  {
    if inputs == [] then Ok([])
    else
      var n := |inputs| - 1;
      var prefix :- RawFunctionInputs(inputs[..n], answer);
      var literal :- answer(n);
      Ok(prefix + [literal])
  }

  /** The name-to-literal map: the literal at position `i` is stored under the
      name of the parameter at position `i`; a later duplicate name overwrites
      an earlier one, as collecting pairs into a hash map does. */
  function InputMap(inputs: seq<Param>, literals: seq<string>): (m: map<string, string>)
    requires |inputs| <= |literals|
    ensures m.Keys == set i | 0 <= i < |inputs| :: inputs[i].name
    decreases |inputs|
  {
    if inputs == [] then map[]
    else
      var n := |inputs| - 1;
      InputMap(inputs[..n], literals)[inputs[n].name := literals[n]]
  }

  /** A name maps to the literal at the LAST position that carries it. */
  lemma {:induction false} InputMapLastWins(inputs: seq<Param>, literals: seq<string>, i: nat)
    requires |inputs| <= |literals| && i < |inputs|
    requires forall j :: i < j < |inputs| ==> inputs[j].name != inputs[i].name
    ensures inputs[i].name in InputMap(inputs, literals)
    ensures InputMap(inputs, literals)[inputs[i].name] == literals[i]
    decreases |inputs|
  {
    var n := |inputs| - 1;
    assert InputMap(inputs, literals) == InputMap(inputs[..n], literals)[inputs[n].name := literals[n]];
    if i < n {
      assert inputs[..n][i] == inputs[i];
      InputMapLastWins(inputs[..n], literals, i);
    }
  }

  /** With distinct names the map holds exactly one entry per parameter
      (and, by `InputMapLastWins`, each name gives back its own literal). */
  lemma InputMapDistinct(inputs: seq<Param>, literals: seq<string>)
    requires |inputs| <= |literals|
    requires forall i, j :: 0 <= i < j < |inputs| ==> inputs[i].name != inputs[j].name
    ensures |InputMap(inputs, literals)| == |inputs|
  {
    NamesCardinality(inputs);
  }

  lemma {:induction false} NamesCardinality(inputs: seq<Param>)
    requires forall i, j :: 0 <= i < j < |inputs| ==> inputs[i].name != inputs[j].name
    ensures |set i | 0 <= i < |inputs| :: inputs[i].name| == |inputs|
    decreases |inputs|
  {
    if inputs != [] {
      var n := |inputs| - 1;
      NamesCardinality(inputs[..n]);
      var front := set i | 0 <= i < n :: inputs[..n][i].name;
      assert (set i | 0 <= i < |inputs| :: inputs[i].name) == front + {inputs[n].name};
      assert inputs[n].name !in front;
    }
  }

  /** The ABI encoding of a call, done by a library outside this model. */
  type Encoder = (Function, seq<string>) -> Result<Bytes>

  /** What the prompts of one transaction produced, each prompt followed by
      the parse of its answer: the name and description, the recipient
      address, the value in wei, the function signature, and the answer for
      each input (by zero-based position). */
  datatype TxPrompts = TxPrompts(
    metadata: Result<ObjectMetadata>,
    to: Result<Address>,
    value: Result<U256>,
    contractFunction: Result<Function>,
    input: nat -> Result<string>)

  /** The transaction the answers `p` describe, or the first failure. */
  function TransactionOf(p: TxPrompts, encode: Encoder): Result<BatchTransaction> {
    var metadata :- p.metadata;
    var to :- p.to;
    var value :- p.value;
    var parsed :- p.contractFunction;
    var fn := parsed.(inputs := Renamed(parsed.inputs));
    var literals :- RawFunctionInputs(fn.inputs, p.input);
    var data :- encode(fn, literals);
    Ok(BatchTransaction(metadata, to, value, data, fn, InputMap(fn.inputs, literals)))
  }

  /** One transaction from its prompts: the parsed function has its unnamed
      parameters named in place before the literals are collected, keyed by
      name and encoded. This is the imperative form of `TransactionOf`: the
      steps are the same, but the rename runs in place on an array through
      `NameUnnamedParams`, and the ensures proves the two agree. */
  method PromptBatchTransaction(p: TxPrompts, encode: Encoder) returns (r: Result<BatchTransaction>)
    ensures r == TransactionOf(p, encode)
  {
    var metadata :- p.metadata;
    var to :- p.to;
    var value :- p.value;
    var fn :- p.contractFunction;
    var params := new Param[|fn.inputs|](i requires 0 <= i < |fn.inputs| => fn.inputs[i]);
    assert params[..] == fn.inputs;
    NameUnnamedParams(params);
    fn := fn.(inputs := params[..]);
    assert fn == p.contractFunction.value.(inputs := Renamed(p.contractFunction.value.inputs));
    var literals :- RawFunctionInputs(fn.inputs, p.input);
    var inputMap := InputMap(fn.inputs, literals);
    var data :- encode(fn, literals);
    r := Ok(BatchTransaction(metadata, to, value, data, fn, inputMap));
  }

  /** Every parameter of a generated transaction has a non-empty name, and
      the literal typed for it is stored under that name unless a later
      parameter carries the same name. */
  lemma TransactionInputs(p: TxPrompts, encode: Encoder, i: nat)
    requires TransactionOf(p, encode).Ok?
    requires i < |TransactionOf(p, encode).value.contractMethod.inputs|
    requires var ps := TransactionOf(p, encode).value.contractMethod.inputs;
             forall j :: i < j < |ps| ==> ps[j].name != ps[i].name
    ensures var tx := TransactionOf(p, encode).value;
            var name := tx.contractMethod.inputs[i].name;
            name != "" && name in tx.contractInputsValues &&
            p.input(i) == Ok(tx.contractInputsValues[name])
  {
    var parsed := p.contractFunction.value;
    var ps := Renamed(parsed.inputs);
    var literals := RawFunctionInputs(ps, p.input).value;
    InputMapLastWins(ps, literals, i);
  }

  /** What the batch prompts produced: the number of transactions, the chain
      ID, the batch's name and description, and the prompts of each
      transaction, by the 1-based number it is prompted under. */
  datatype BatchPrompts = BatchPrompts(
    count: Result<U64>,
    chainId: Result<U64>,
    metadata: Result<ObjectMetadata>,
    transaction: nat -> TxPrompts)

  /** The batch definition: transactions 1 .. count are prompted in order
      and appended to the batch; the first failure aborts the whole batch. */
  method GenerateBatchDefinition(p: BatchPrompts, encode: Encoder) returns (r: Result<MultisigBatch>)
    ensures p.count.Err? ==> r == Err(p.count.error)
    ensures p.count.Ok? && p.chainId.Err? ==> r == Err(p.chainId.error)
    ensures p.count.Ok? && p.chainId.Ok? && p.metadata.Err? ==> r == Err(p.metadata.error)
    ensures r.Ok? <==> p.count.Ok? && p.chainId.Ok? && p.metadata.Ok? &&
                       forall n :: 1 <= n <= p.count.value ==> TransactionOf(p.transaction(n), encode).Ok?
    ensures r.Ok? ==> r.value.chainId == p.chainId.value && r.value.metadata == p.metadata.value &&
                      |r.value.transactions| == p.count.value &&
                      forall n :: 1 <= n <= p.count.value ==>
                        r.value.transactions[n - 1] == TransactionOf(p.transaction(n), encode).value
    ensures r.Err? && p.count.Ok? && p.chainId.Ok? && p.metadata.Ok? ==>
              exists n :: 1 <= n <= p.count.value && TransactionOf(p.transaction(n), encode) == Err(r.error) &&
                          forall m :: 1 <= m < n ==> TransactionOf(p.transaction(m), encode).Ok?
  {
    var count :- p.count;
    var chainId :- p.chainId;
    var metadata :- p.metadata;
    var batch := MultisigBatch(chainId, metadata, []);
    var i: nat := 0;
    while i < count
      invariant i <= count
      invariant batch.chainId == chainId && batch.metadata == metadata && |batch.transactions| == i
      invariant forall n :: 1 <= n <= i ==>
                  TransactionOf(p.transaction(n), encode).Ok? &&
                  batch.transactions[n - 1] == TransactionOf(p.transaction(n), encode).value
    {
      var tx := PromptBatchTransaction(p.transaction(i + 1), encode);
      if tx.Err? {
        return Err(tx.error);
      }
      batch := batch.(transactions := batch.transactions + [tx.value]);
      i := i + 1;
    }
    r := Ok(batch);
  }
}
