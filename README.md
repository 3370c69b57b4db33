# msup batch generator and renderer, modelled in Dafny

`msup` is a command-line tool for multisig upgrade batches. It has two parts.
`generate` asks the user for a batch: a chain ID, a name and description, and
a number of transactions. For each transaction it asks for a recipient, a
value in wei, a function signature and one literal per function parameter.
`render` turns a stored batch into a Markdown document with one section per
transaction.

This project models the tool's own logic in those two parts:

- `types.dfy`: the batch records (`MultisigBatch`, `ObjectMetadata`,
  `BatchTransaction`). It also holds the parts of a parsed contract function
  that the tool touches (`Function`, `Param`).
- `generate.dfy`: the generator.
  - Unnamed parameters are renamed in place to `unnamed_param<i>`, where `i`
    is the zero-based position among all parameters.
  - One literal is collected per parameter, in parameter order.
  - The literals are keyed by parameter name into a map.
  - The transactions are appended to the batch in prompt order.
- `render.dfy`: the renderer.
  - A string writer is only ever appended to.
  - The header is written first, then each transaction as a numbered section.
  - The inputs of a transaction are written in whatever order the map yields them.
- `decimal.dfy`: the decimal text Rust's `{}` gives an unsigned integer. It is
  used for synthesized names, the chain ID, the transaction count and section
  numbers. A reading function and a round-trip lemma come with it.
- `results.dfy`: the `Result` type that stands for the tool's `?` error
  propagation.

The interactive prompts are not modelled. Each prompt, together with the
parse of its answer, becomes a given `Result` value (`TxPrompts`,
`BatchPrompts`). The answer to the prompt for input `i` is `input(i)`. The
prompts of transaction number `n` (numbered from 1) are `transaction(n)`.

The ABI encoding of a call is library code, so it is a function parameter
(`Encoder`). The textual forms of an address, a 256-bit value, raw bytes and
a function signature are also library code; they are the fields of a
`Display` parameter.

Nothing in the tool re-encodes a transaction or compares it with its stored
`data`. `render_batch_doc` (src/render.rs:8-24) deserialises the batch and
renders it without checking anything, so `RenderBatchDoc` has no precondition
and cannot fail.

Nothing in the tool makes parameter names unique. `RenamedMayCollide` shows
two parameters that end up with the same name; `RenamedNamesDistinct` gives
conditions under which the renamed names are distinct.

## Model

| member | source | states |
|---|---|---|
| `Generate.Renamed` | src/generate.rs:61-69 | same number of parameters, same types at each position, a non-empty name is kept exactly, an empty name at position `i` becomes `unnamed_param` followed by the decimal form of `i`, and no name is empty afterwards |
| `Generate.NameUnnamedParams` | src/generate.rs:61-69 | the in-place rename loop leaves the parameter array equal to `Renamed` of its old contents |
| `Generate.RenamedIdempotent` | src/generate.rs:66-68 | renaming an already renamed list changes nothing |
| `Generate.SynthesizedNameInjective` | src/generate.rs:67 | two positions get the same synthesized name only if they are the same position |
| `Generate.RenamedNamesDistinct` | src/generate.rs:61-69 | if the user-given names are pairwise distinct and none looks like a synthesized name, then all names after renaming are pairwise distinct |
| `Generate.RenamedMayCollide` | src/generate.rs:61-69 | a parameter named `unnamed_param1` and an unnamed parameter at position 1 end up with the same name |
| `Generate.RawFunctionInputs` | src/generate.rs:90-105 | succeeds exactly when every input prompt succeeds; the result has one literal per parameter, in parameter order; on failure the error is that of the first failing prompt |
| `Generate.InputMap` | src/generate.rs:72-77 | the map's key set is exactly the set of parameter names |
| `Generate.InputMapLastWins` | src/generate.rs:72-77 | a name maps to the literal at the last position that carries that name |
| `Generate.InputMapDistinct` | src/generate.rs:72-77 | with distinct names the map has exactly one entry per parameter (each then maps to its own literal, by `InputMapLastWins`) |
| `Generate.PromptBatchTransaction` | src/generate.rs:46-87 | the transaction is built from the prompts in order (metadata, recipient, value, signature, inputs, encoding); the first failure is returned; on success the function's parameters are renamed, the inputs map is keyed by the renamed names, and `data` is the encoding of the renamed function with the literals |
| `Generate.TransactionInputs` | src/generate.rs:71-85 | in a generated transaction every parameter name is non-empty and is a key of the inputs map; unless a later parameter has the same name, the key maps to the literal typed for that parameter |
| `Generate.GenerateBatchDefinition` | src/generate.rs:13-36 | a failure of the count, chain ID or metadata prompts is returned as is; otherwise the batch succeeds exactly when transactions 1..count all succeed; it then has the prompted chain ID and metadata and exactly count transactions, the one at zero-based position `k` being the one prompted as number `k + 1`; otherwise the error is that of the first failing transaction |
| `Decimal.NatToDecimal` | src/generate.rs:67 | the decimal text is non-empty, all digits, and starts with `0` only for zero |
| `Decimal.DecimalRoundTrip` | src/generate.rs:67 | reading the decimal text of `n` gives back `n` |
| `Decimal.DecimalInjective` | src/render.rs:49 | distinct numbers (section numbers, positions) have distinct decimal texts |
| `Render.Writer.constructor` | src/render.rs:12 | the document starts empty |
| `Render.Writer.PushStr` | src/render.rs:27-75 | each append only extends the text; the earlier text is an unchanged prefix |
| `Render.AppendHeader` | src/render.rs:27-41 | appends exactly `# <name>\n`, `<description>\n\n` and the sentence with the chain ID and the number of transactions, in that order |
| `Render.AppendHeading` | src/render.rs:45-53 | appends a blank line, `## Tx #<i>: <name>\n`, `<description>\n` and a blank line |
| `Render.AppendDetails` | src/render.rs:55-68 | appends the Function Signature, To, Value (with ` WEI`) and Raw Input Data lines in that order, then a blank line |
| `Render.AppendInputs` | src/render.rs:70-74 | appends `### Inputs\n` and then one entry line (bold name, then the value in backticks) per visited entry; the order of visiting lists every key of the map exactly once |
| `Render.AppendTransaction` | src/render.rs:43-75 | appends exactly the section for number `i`, which depends only on `i` and the transaction's fields |
| `Render.AppendSections` | src/render.rs:14-18 | appends the sections of all transactions in vector order, the one at position `k` numbered `k + 1` |
| `Render.RenderBatchDoc` | src/render.rs:8-24 | the document begins with the header and is the header followed by the sections of the transactions; it has no precondition and never fails on the batch's contents |
| `Render.DocumentSection` | src/render.rs:12-18 | the section of transaction `k` is numbered `k + 1` and comes after the header and the sections of all earlier transactions |
| `Render.InputsOnePerEntry` | src/render.rs:71-74 | the inputs part is its heading followed by exactly one line per map entry, and every entry's line is there |
| `Render.EnumerationSize` | src/render.rs:72-74 | an iteration order of the map lists exactly as many names as the map has keys |
| `Render.DocumentTitle` | src/render.rs:29 | if the batch name has no line break, the first line of the document is `# ` followed by the name |

## Left out

- Interactive prompting (`inquire`), the prompt texts and terminal output (`println!`, `yansi` colouring) are left out. Prompt answers are given values.
- Parsing is library code and is left out. This covers `u64::from_str_radix`, `U256::from_str_radix`, `Address::from_hex` and `Function::parse`. Their outcomes are given `Result` values.
- ABI coercion and encoding (`encode_function_args` in src/util.rs) are left out. The encoder is a function parameter.
- Generate.GenerateBatchDefinition: returns the batch instead of writing it. The source serialises the batch as JSON to a fixed file `input.json`, not to the output path it prints. File I/O and JSON are not modelled.
- Render.RenderBatchDoc: takes the batch already deserialised and returns the document. Reading the input file, parsing its JSON and writing the output file are not modelled, and neither are their I/O errors.
- The textual forms of `Address`, `U256`, `Bytes` and `Function::signature()` are left out. They come from library code and are parameters (`Display`).
- The iteration order of the inputs `HashMap` is not modelled. It is an arbitrary choice in `AppendInputs`, proved only to list every key once.
- `Param.components`, `Param.internal_type` and `Function.state_mutability` are left out. The tool's own code never reads them; but the signature text (`signature()`, src/render.rs:59) and the encoding of tuple parameters (`selector_type()` in src/util.rs) depend on `components`, which the model's `Display.signature` and `Encoder` cannot see, so the model gives the same text and encoding for two functions that differ only in their tuple components.
- Integer widths are left out. Counters and positions are unbounded naturals; the `u64` loop counter and `usize` positions never overflow for batches that fit in memory.
- The CLI in src/msup.rs (argument parsing and dispatch) is left out.
- `append_transaction` is split into `AppendHeading`, `AppendDetails` and `AppendInputs`, called in the source's order. The text appended is unchanged.
