/** Rendering a batch definition as a Markdown document (src/render.rs).
    A single string writer is extended fragment by fragment: first the batch
    header, then one section per transaction, numbered from 1 in order.
    Reading the JSON file and writing the document out are not modelled; the
    textual forms of an address, a 256-bit value, raw bytes and a function
    signature come from library code and are passed in as a `Display`. */
module Render {
  import opened Types
  import Decimal

  /** The library `Display` forms the renderer prints. */
  datatype Display = Display(
    signature: Function -> string,
    address: Address -> string,
    amount: U256 -> string,
    bytes: Bytes -> string)

  /** The document being built: a growable string that is only appended to. */
  class Writer {
    var text: string

    constructor ()
      ensures text == ""
    {
      text := "";
    }

    method PushStr(s: string)
      modifies this
      ensures text == old(text) + s
    {
      text := text + s;
    }
  }

  /** `# <name>` on a line of its own. */
  function TitleLine(name: string): string {
    "# " + name + "\n"
  }

  /** The description followed by a blank line. */
  function DescriptionParagraph(description: string): string {
    description + "\n\n"
  }

  /** The sentence giving the chain ID and the number of transactions. */
  function ChainSentence(chainId: nat, count: nat): string {
    "The batch will be executed on chain ID `" + Decimal.NatToDecimal(chainId)
    + "`, and contains `" + Decimal.NatToDecimal(count) + "` transactions.\n"
  }

  /** Title line, description, and the chain sentence. */
  function Header(batch: MultisigBatch): string {
    TitleLine(batch.metadata.name)
    + DescriptionParagraph(batch.metadata.description)
    + ChainSentence(batch.chainId, |batch.transactions|)
  }

  /** `## Tx #<i>: <name>` on a line of its own. */
  function SectionTitleLine(i: nat, name: string): string {
    "## Tx #" + Decimal.NatToDecimal(i) + ": " + name + "\n"
  }

  /** The opening of section `i`: a blank line, the numbered title, the
      description and another blank line. */
  function Heading(i: nat, tx: BatchTransaction): string {
    "\n" + SectionTitleLine(i, tx.metadata.name) + (tx.metadata.description + "\n") + "\n"
  }

  function SignatureLine(signature: string): string {
    "**Function Signature:** `" + signature + "`\n\n"
  }

  function ToLine(to: string): string {
    "**To:** `" + to + "`\n\n"
  }

  function ValueLine(value: string): string {
    "**Value:** `" + value + " WEI`\n\n"
  }

  function RawDataLine(data: string): string {
    "**Raw Input Data:** `" + data + "`\n"
  }

  /** Signature, recipient, value in wei and raw call data, in that order,
      then a blank line. */
  function Details(tx: BatchTransaction, d: Display): string {
    SignatureLine(d.signature(tx.contractMethod))
    + ToLine(d.address(tx.to))
    + ValueLine(d.amount(tx.value))
    + RawDataLine(d.bytes(tx.data))
    + "\n"
  }

  /** The line for one named input. */
  function EntryLine(name: string, value: string): string {
    "**" + name + ":** `" + value + "`\n\n"
  }

  /** Every name of `order` is a key of `m`. */
  predicate InKeys(order: seq<string>, m: map<string, string>) {
    forall name :: name in order ==> name in m
  }

  /** `order` lists every key of `keys` exactly once: one iteration order of
      a hash map with those keys. */
  ghost predicate IsEnumeration(order: seq<string>, keys: set<string>) {
    && (forall i, j :: 0 <= i < j < |order| ==> order[i] != order[j])
    && (forall name :: name in order <==> name in keys)
  }

  /** The input lines of `m`, visited in the order `order`. */
  function InputLines(m: map<string, string>, order: seq<string>): string
    requires InKeys(order, m)
  {
    if order == [] then ""
    else
      var last := order[|order| - 1];
      InputLines(m, order[..|order| - 1]) + EntryLine(last, m[last])
  }

  lemma InputLinesSnoc(m: map<string, string>, order: seq<string>, name: string)
    requires InKeys(order, m) && name in m
    ensures InKeys(order + [name], m)
    ensures InputLines(m, order + [name]) == InputLines(m, order) + EntryLine(name, m[name])
  {
    assert (order + [name])[..|order|] == order;
  }

  /** The inputs part: its heading, then one line per visited input. */
  function InputsPart(m: map<string, string>, order: seq<string>): string
    requires InKeys(order, m)
  {
    "### Inputs\n" + InputLines(m, order)
  }

  /** Section number `i` for `tx`, its inputs visited in the order `order`.
      It depends on nothing but the number and the transaction's fields. */
  function Section(i: nat, tx: BatchTransaction, d: Display, order: seq<string>): string
    requires InKeys(order, tx.contractInputsValues)
  {
    Heading(i, tx) + Details(tx, d) + InputsPart(tx.contractInputsValues, order)
  }

  /** `orders[k]` is a visiting order for the inputs of `txs[k]`. */
  predicate OrdersFit(txs: seq<BatchTransaction>, orders: seq<seq<string>>) {
    |orders| == |txs| && forall k :: 0 <= k < |txs| ==> InKeys(orders[k], txs[k].contractInputsValues)
  }

  /** The sections of `txs`, the one at zero-based position `k` numbered `k + 1`. */
  function SectionTexts(txs: seq<BatchTransaction>, d: Display, orders: seq<seq<string>>): (r: seq<string>)
    requires OrdersFit(txs, orders)
    ensures |r| == |txs|
  {
    seq(|txs|, k requires 0 <= k < |txs| => Section(k + 1, txs[k], d, orders[k]))
  }

  /** The texts of `parts`, one after the other. */
  function Concat(parts: seq<string>): string {
    if parts == [] then "" else parts[0] + Concat(parts[1..])
  }

  lemma {:induction false} ConcatAppend(a: seq<string>, b: seq<string>)
    ensures Concat(a + b) == Concat(a) + Concat(b)
    decreases |a|
  {
    if a == [] {
      assert a + b == b;
    } else {
      ConcatAppend(a[1..], b);
      assert (a + b)[1..] == a[1..] + b;
    }
  }

  /** The whole document: the header, then one section per transaction. */
  function Document(batch: MultisigBatch, d: Display, orders: seq<seq<string>>): string
    requires OrdersFit(batch.transactions, orders)
  {
    Header(batch) + Concat(SectionTexts(batch.transactions, d, orders))
  }

  method AppendHeader(writer: Writer, batch: MultisigBatch)
    modifies writer
    ensures writer.text == old(writer.text) + Header(batch)
  {
    writer.PushStr(TitleLine(batch.metadata.name));
    writer.PushStr(DescriptionParagraph(batch.metadata.description));
    writer.PushStr(ChainSentence(batch.chainId, |batch.transactions|));
    assert Header(batch) == TitleLine(batch.metadata.name) + DescriptionParagraph(batch.metadata.description)
                            + ChainSentence(batch.chainId, |batch.transactions|);
  }

  /** The blank line, numbered title, description and blank line that open
      section `i`. */
  method AppendHeading(writer: Writer, i: nat, tx: BatchTransaction)
    modifies writer
    ensures writer.text == old(writer.text) + Heading(i, tx)
  {
    writer.PushStr("\n");
    writer.PushStr(SectionTitleLine(i, tx.metadata.name));
    writer.PushStr(tx.metadata.description + "\n");
    writer.PushStr("\n");
    assert old(writer.text) + Heading(i, tx)
        == old(writer.text) + "\n" + SectionTitleLine(i, tx.metadata.name) + (tx.metadata.description + "\n") + "\n";
  }

  /** The signature, recipient, value and raw data lines, and a blank line. */
  method AppendDetails(writer: Writer, tx: BatchTransaction, d: Display)
    modifies writer
    ensures writer.text == old(writer.text) + Details(tx, d)
  {
    writer.PushStr(SignatureLine(d.signature(tx.contractMethod)));
    writer.PushStr(ToLine(d.address(tx.to)));
    writer.PushStr(ValueLine(d.amount(tx.value)));
    writer.PushStr(RawDataLine(d.bytes(tx.data)));
    writer.PushStr("\n");
    assert old(writer.text) + Details(tx, d)
        == old(writer.text) + SignatureLine(d.signature(tx.contractMethod)) + ToLine(d.address(tx.to))
           + ValueLine(d.amount(tx.value)) + RawDataLine(d.bytes(tx.data)) + "\n";
  }

  /** The inputs heading and one line per entry of `m`, in whatever order
      the map yields its entries; `order` is that order, and it lists every
      key exactly once. */
  method AppendInputs(writer: Writer, m: map<string, string>) returns (ghost order: seq<string>)
    modifies writer
    ensures IsEnumeration(order, m.Keys) && InKeys(order, m)
    ensures writer.text == old(writer.text) + InputsPart(m, order)
  {
    writer.PushStr("### Inputs\n");
    ghost var before := writer.text;
    var remaining := m.Keys;
    order := [];
    while remaining != {}
      invariant remaining <= m.Keys
      invariant forall name :: name in order <==> name in m.Keys && name !in remaining
      invariant forall a, b :: 0 <= a < b < |order| ==> order[a] != order[b]
      invariant writer.text == before + InputLines(m, order)
      decreases remaining
    {
      var name :| name in remaining;
      writer.PushStr(EntryLine(name, m[name]));
      InputLinesSnoc(m, order, name);
      assert before + InputLines(m, order + [name]) == before + InputLines(m, order) + EntryLine(name, m[name]);
      remaining := remaining - {name};
      order := order + [name];
    }
  }

  /** Appends section `i` for `tx`; `order` is the order its inputs were
      written in, which lists every input exactly once. */
  method AppendTransaction(writer: Writer, i: nat, tx: BatchTransaction, d: Display) returns (ghost order: seq<string>)
    modifies writer
    ensures IsEnumeration(order, tx.contractInputsValues.Keys) && InKeys(order, tx.contractInputsValues)
    ensures writer.text == old(writer.text) + Section(i, tx, d, order)
  {
    AppendHeading(writer, i, tx);
    AppendDetails(writer, tx, d);
    order := AppendInputs(writer, tx.contractInputsValues);
    assert old(writer.text) + Section(i, tx, d, order)
        == old(writer.text) + Heading(i, tx) + Details(tx, d) + InputsPart(tx.contractInputsValues, order);
  }

  lemma ConcatSnoc(prefix: string, parts: seq<string>, part: string)
    ensures prefix + Concat(parts + [part]) == prefix + Concat(parts) + part
  {
    ConcatAppend(parts, [part]);
    assert Concat([part]) == part + Concat([]);
  }

  lemma ConcatSplit(parts: seq<string>, k: nat)
    requires k < |parts|
    ensures Concat(parts) == Concat(parts[..k]) + parts[k] + Concat(parts[k + 1..])
  {
    var front, back := parts[..k], parts[k..];
    assert parts == front + back;
    ConcatAppend(front, back);
    assert back[0] == parts[k] && back[1..] == parts[k + 1..];
    assert Concat(back) == parts[k] + Concat(parts[k + 1..]);
  }

  /** The document is the header followed by the sections in vector order:
      the transaction at zero-based position `k` is rendered as section
      number `k + 1`, after the sections of all earlier transactions. */
  lemma DocumentSection(batch: MultisigBatch, d: Display, orders: seq<seq<string>>, k: nat)
    requires OrdersFit(batch.transactions, orders) && k < |batch.transactions|
    ensures var texts := SectionTexts(batch.transactions, d, orders);
            Document(batch, d, orders) ==
              Header(batch) + Concat(texts[..k])
              + Section(k + 1, batch.transactions[k], d, orders[k])
              + Concat(texts[k + 1..])
  {
    var texts := SectionTexts(batch.transactions, d, orders);
    ConcatSplit(texts, k);
    assert texts[k] == Section(k + 1, batch.transactions[k], d, orders[k]);
    Regroup(Header(batch), Concat(texts[..k]), texts[k], Concat(texts[k + 1..]));
  }

  // Re-brackets a concatenation; stated apart so that the solver sees the
  // pieces as plain strings rather than as the large terms they stand for.
  lemma Regroup(w: string, a: string, b: string, c: string)
    ensures w + (a + b + c) == w + a + b + c
  {
  }

  /** `orders[k]` lists every input name of `txs[k]` exactly once. */
  ghost predicate Enumerates(txs: seq<BatchTransaction>, orders: seq<seq<string>>) {
    |orders| == |txs| &&
    forall k :: 0 <= k < |txs| ==> IsEnumeration(orders[k], txs[k].contractInputsValues.Keys)
  }

  lemma EnumeratesSnoc(txs: seq<BatchTransaction>, orders: seq<seq<string>>, k: nat, order: seq<string>)
    requires k < |txs| && Enumerates(txs[..k], orders)
    requires IsEnumeration(order, txs[k].contractInputsValues.Keys)
    ensures Enumerates(txs[..k + 1], orders + [order])
  {
    assert txs[..k + 1] == txs[..k] + [txs[k]];
  }

  /** Rendering one more transaction adds its section at the end. */
  lemma SectionTextsSnoc(txs: seq<BatchTransaction>, d: Display, orders: seq<seq<string>>, k: nat, order: seq<string>)
    requires k < |txs| && OrdersFit(txs[..k], orders) && InKeys(order, txs[k].contractInputsValues)
    ensures OrdersFit(txs[..k + 1], orders + [order])
    ensures SectionTexts(txs[..k + 1], d, orders + [order])
            == SectionTexts(txs[..k], d, orders) + [Section(k + 1, txs[k], d, order)]
  {
    assert txs[..k + 1] == txs[..k] + [txs[k]];
  }

  /** The loop over the transactions: each is appended as a section,
      numbered from 1 in vector order. */
  method AppendSections(writer: Writer, txs: seq<BatchTransaction>, d: Display) returns (ghost orders: seq<seq<string>>)
    modifies writer
    ensures Enumerates(txs, orders) && OrdersFit(txs, orders)
    ensures writer.text == old(writer.text) + Concat(SectionTexts(txs, d, orders))
  {
    orders := [];
    for i := 0 to |txs|
      invariant Enumerates(txs[..i], orders)
      invariant OrdersFit(txs[..i], orders)
      invariant writer.text == old(writer.text) + Concat(SectionTexts(txs[..i], d, orders))
    {
      ghost var order: seq<string>;
      order := AppendTransaction(writer, i + 1, txs[i], d);
      SectionTextsSnoc(txs, d, orders, i, order);
      EnumeratesSnoc(txs, orders, i, order);
      ConcatSnoc(old(writer.text), SectionTexts(txs[..i], d, orders), Section(i + 1, txs[i], d, order));
      orders := orders + [order];
    }
    assert txs[..|txs|] == txs;
  }

  /** Rendering: the header, then each transaction in order as a numbered
      section. Nothing is checked against the transaction's contents, and
      rendering cannot fail. `orders` records the iteration order each
      transaction's input map was visited in. */
  method RenderBatchDoc(batch: MultisigBatch, d: Display) returns (document: string, ghost orders: seq<seq<string>>)
    ensures Header(batch) <= document
    ensures Enumerates(batch.transactions, orders)
    ensures OrdersFit(batch.transactions, orders) && document == Document(batch, d, orders)
  {
    var writer := new Writer();
    AppendHeader(writer, batch);
    assert writer.text == Header(batch);
    orders := AppendSections(writer, batch.transactions, d);
    document := writer.text;
  }

  /** An enumeration of a key set has exactly as many entries as there are
      keys: the inputs part has one line per map entry. */
  lemma {:induction false} EnumerationSize(order: seq<string>, keys: set<string>)
    requires IsEnumeration(order, keys)
    ensures |order| == |keys|
    decreases |order|
  {
    if order != [] {
      var last := order[|order| - 1];
      var front := order[..|order| - 1];
      assert IsEnumeration(front, keys - {last}) by {
        forall name
          ensures name in front <==> name in keys - {last}
        {
          if name in front {
            var a :| 0 <= a < |front| && front[a] == name;
            assert order[a] == name;
          }
          if name in keys - {last} {
            assert name in order;
            var a :| 0 <= a < |order| && order[a] == name;
            assert a != |order| - 1;
            assert front[a] == name;
          }
        }
      }
      EnumerationSize(front, keys - {last});
    }
  }

  /** The entry lines of `m` visited in the order `order`, one per name. */
  function EntryLines(m: map<string, string>, order: seq<string>): (r: seq<string>)
    requires InKeys(order, m)
    ensures |r| == |order|
  {
    seq(|order|, j requires 0 <= j < |order| => EntryLine(order[j], m[order[j]]))
  }

  lemma {:induction false} InputLinesAreEntries(m: map<string, string>, order: seq<string>)
    requires InKeys(order, m)
    ensures InputLines(m, order) == Concat(EntryLines(m, order))
    decreases |order|
  {
    if order != [] {
      var n := |order| - 1;
      var front, line := EntryLines(m, order[..n]), EntryLine(order[n], m[order[n]]);
      InputLinesAreEntries(m, order[..n]);
      assert EntryLines(m, order) == front + [line];
      ConcatAppend(front, [line]);
      assert Concat([line]) == line;
      assert InputLines(m, order) == InputLines(m, order[..n]) + line;
    }
  }

  /** When the inputs are visited in an iteration order of the map, the
      inputs part is its heading followed by exactly one line per entry of
      the map, every entry appearing. */
  lemma InputsOnePerEntry(m: map<string, string>, order: seq<string>)
    requires IsEnumeration(order, m.Keys)
    ensures InKeys(order, m)
    ensures InputsPart(m, order) == "### Inputs\n" + Concat(EntryLines(m, order))
    ensures |EntryLines(m, order)| == |m|
    ensures forall name :: name in m ==> EntryLine(name, m[name]) in EntryLines(m, order)
  {
    InputLinesAreEntries(m, order);
    EnumerationSize(order, m.Keys);
    forall name | name in m
      ensures EntryLine(name, m[name]) in EntryLines(m, order)
    {
      var j :| 0 <= j < |order| && order[j] == name;
      assert EntryLines(m, order)[j] == EntryLine(name, m[name]);
    }
  }

  /** The first line of a text (up to, not including, the first newline). */
  function FirstLine(s: string): string {
    if s == [] || s[0] == '\n' then [] else [s[0]] + FirstLine(s[1..])
  }

  lemma {:induction false} FirstLineOf(line: string, rest: string)
    requires '\n' !in line
    ensures FirstLine(line + "\n" + rest) == line
    decreases |line|
  {
    if line != [] {
      assert (line + "\n" + rest)[1..] == line[1..] + "\n" + rest;
      FirstLineOf(line[1..], rest);
    }
  }

  /** When the batch name holds no line break, the document's first line is
      the title `# <name>`: the name can be read back off the document. */
  lemma DocumentTitle(batch: MultisigBatch, d: Display, orders: seq<seq<string>>)
    requires OrdersFit(batch.transactions, orders)
    requires '\n' !in batch.metadata.name
    ensures FirstLine(Document(batch, d, orders)) == "# " + batch.metadata.name
  {
    var title := "# " + batch.metadata.name;
    var rest := Document(batch, d, orders)[|title| + 1..];
    assert Document(batch, d, orders) == title + "\n" + rest;
    FirstLineOf(title, rest);
  }
}
