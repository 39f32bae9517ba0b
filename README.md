# Wrap-transaction builder (ensjs `wrapName`)

This project models the function that builds the unsigned transaction wrapping
an ENS name into the NameWrapper contract. The function works in this order:

1. It replaces a falsy resolver address with the public resolver's address.
2. It splits the name on `.` and applies the label-length check to the first label.
3. It chooses one of two paths:
   - A second-level `.eth` name takes the .eth path. It normalises `fuseOptions` by its `typeof`, resolves the expiry and builds a call to the base registrar's `safeTransferFrom(address,address,uint256,bytes)`. That call moves the label's token to the name wrapper, with the ABI-encoded (label, owner, fuses, expiry, resolver) as data.
   - Every other name takes the generic path. It refuses truthy fuse options, then truthy expiry options. It then requires that the registry approves the name wrapper for the signer, and builds a call to the name wrapper's `wrap(encodedName, owner, resolver)`.

The builder is modelled as pure functions returning `Result<WrapTx>`:

- `WrapTx` has one constructor per path: `EthWrap` and `OtherWrap`.
- `WrapError` has one constructor per refusal.
- The JavaScript values that the builder inspects are modelled in `JsValues`: one constructor per `typeof` result, plus `null`, whose `typeof` is `"object"`. `JsValues` also models JavaScript truthiness.
- The string built-ins the builder uses are modelled in `JsStrings`: `split` and `Number.prototype.toString(16)`. Each comes with a left inverse (`Join`, `ParseHexNumber`), and the round trip through it is proved.
- Every collaborator is a field of the `Env` datatype. This covers the signer's address, the contract addresses, the registry's `isApprovedForAll`, `makeExpiry`, the label-length check, `generateFuseInput`, `hexEncodeName`, the label hash and the ABI encoder.

Files: `js_values.dfy` (module `JsValues`), `js_strings.dfy` (module `JsStrings`), `wrap_name.dfy` (module `WrapName`).

The model follows the code's behaviour in these places:

- The code passes a string `fuseOptions` through unchanged. It does not normalise the string to canonical hex.
- The code reads the signer's address and the public resolver before it checks anything. The model treats both as inputs, so this ordering is not observable in the model.
- The code has no single "option not supported" error. It has two distinct refusals, `FusesNotAllowed` and `ExpiryNotAllowed`, and the fuse refusal wins when both options are set.
- The code refuses options by JavaScript truthiness, not by presence. So `0`, `""`, `false` and `null` pass on the generic path, and an empty object `{}` is refused.

The name `".eth"` splits into `["", "eth"]`, so it takes the .eth path with an empty first label. `BareEthExamples` records this case.

## Model

| member | source | states |
|---|---|---|
| JsStrings.Split | packages/ensjs/src/functions/wrapName.ts:88 | splitting always yields at least one label, so `labels[0]` exists, and no label contains the separator |
| JsStrings.JoinSplit | packages/ensjs/src/functions/wrapName.ts:88 | joining the split labels with the separator gives back the name, so the split loses nothing |
| JsStrings.SplitJoin | packages/ensjs/src/functions/wrapName.ts:88 | splitting the join of separator-free labels gives back exactly those labels |
| JsStrings.NumberToString16 | packages/ensjs/src/functions/wrapName.ts:98 | `toString(16)` of an integral number is non-empty, starts with a minus sign exactly when the number is negative, and is otherwise lower-case hex digits |
| JsValues.TypeOf | packages/ensjs/src/functions/wrapName.ts:92 | `typeof` yields one of the eight JavaScript type names |
| JsValues.Truthy | packages/ensjs/src/functions/wrapName.ts:127-131 | among "object" values only null is falsy; symbols and functions are always truthy; undefined is always falsy |
| WrapName.TakesEthPath | packages/ensjs/src/functions/wrapName.ts:91 | on the .eth path the name is its dot-free first label followed by ".eth" |
| WrapName.ResolverToUse | packages/ensjs/src/functions/wrapName.ts:85-86 | a truthy given address is kept, a falsy one is replaced by the public resolver's, and the result is empty only when both are |
| JsStrings.NatToHex | packages/ensjs/src/functions/wrapName.ts:98 | base-16 rendering uses only lower-case hex digits, writes "0" only for zero, and never writes a leading zero |
| JsStrings.HexToNatOfNatToHex | packages/ensjs/src/functions/wrapName.ts:98 | reading the base-16 digits back gives the original non-negative number |
| JsStrings.NumberToString16RoundTrip | packages/ensjs/src/functions/wrapName.ts:98 | `toString(16)` of any integral number, including a negative one, parses back to that number |
| JsStrings.NumberToString16Injective | packages/ensjs/src/functions/wrapName.ts:98 | distinct numeric fuse values give distinct fuse strings |
| JsStrings.NumberToString16Canonical | packages/ensjs/src/functions/wrapName.ts:98 | the rendering is "0" exactly for zero; positive numbers have no leading zero; negative numbers have a minus sign followed by a non-zero digit |
| JsValues.FalsyValues | packages/ensjs/src/functions/wrapName.ts:127-134 | the options that the generic path lets through are exactly the falsy values: undefined, null, false, 0, 0n and "" |
| JsValues.TypeOfObject | packages/ensjs/src/functions/wrapName.ts:92-111 | `typeof` is "object" exactly for null and objects, and "number", "string" or "undefined" exactly for those shapes |
| WrapName.Labels | packages/ensjs/src/functions/wrapName.ts:88-89 | every name has a first label for the length check to inspect |
| WrapName.EthPathByShape | packages/ensjs/src/functions/wrapName.ts:91 | the .eth path (two labels, the second "eth") is taken exactly when the name ends in ".eth" and has no other dot |
| WrapName.EthFirstLabel | packages/ensjs/src/functions/wrapName.ts:21-25 | on the .eth path, the label that is hashed and encoded is everything before ".eth" |
| WrapName.DecodeFuses | packages/ensjs/src/functions/wrapName.ts:92-111 | objects and null go through generateFuseInput; a number becomes exactly its `toString(16)` rendering `NumberToString16`, which parses back to it; a string passes unchanged; undefined becomes "0"; every other type is refused with its typeof name, and only those types are refused |
| WrapName.FuseShapesAgree | packages/ensjs/src/functions/wrapName.ts:92-104 | an option set decodes like the string `generateFuseInput` makes of it; a number decodes like its base-16 string; distinct numbers never decode to the same fuse string |
| WrapName.WrapEth | packages/ensjs/src/functions/wrapName.ts:8-31 | the .eth call targets the base registrar's 4-argument `safeTransferFrom`, from the signer to the name wrapper, with the first label's hash as token id and the encoded (label, owner, fuses, expiry, resolver) as data |
| WrapName.WrapOther | packages/ensjs/src/functions/wrapName.ts:33-60 | a transaction is built exactly when the registry approves the name wrapper for the signer; otherwise the result is the approval error; the transaction is `wrap(hexEncodeName(name), owner, resolver)` on the name wrapper |
| WrapName.BuildWrap | packages/ensjs/src/functions/wrapName.ts:62-143 | a successful result passed the label check; it is a registrar transfer exactly when the name is a second-level .eth name; a generic `wrap` implies approval and falsy fuse and expiry options |
| WrapName.LabelCheckComesFirst | packages/ensjs/src/functions/wrapName.ts:88-89 | an over-long first label is refused on either path, before any fuse, expiry or approval check |
| WrapName.EthPathOutcome | packages/ensjs/src/functions/wrapName.ts:91-125 | on the .eth path, the result is the invalid-type error or the registrar transfer built from the decoded fuses, the resolved expiry and the resolver in use |
| WrapName.GenericPathOutcome | packages/ensjs/src/functions/wrapName.ts:127-142 | on the generic path, the checks run in this order: fuses refused, then expiry refused, then approval required, and otherwise the `wrap` call |
| WrapName.ErrorExits | packages/ensjs/src/functions/wrapName.ts:62-143 | each of the five refusals happens if and only if its own conditions hold |
| WrapName.FuseRefusalWins | packages/ensjs/src/functions/wrapName.ts:127-134 | off the .eth path, a truthy fuse option is refused whatever the expiry and the approval |
| WrapName.FalsyOptionsPass | packages/ensjs/src/functions/wrapName.ts:127-135 | falsy fuse and expiry options do not block the generic path; only the approval then decides |
| WrapName.EthPathIgnoresApproval | packages/ensjs/src/functions/wrapName.ts:91-125 | the .eth path's outcome does not depend on the registry's approval answer |
| WrapName.OptionsRefusedBeforeApproval | packages/ensjs/src/functions/wrapName.ts:127-135 | a refused fuse or expiry option on the generic path does not depend on the approval answer, so the refusal comes before that read |
| WrapName.ResolverInTransaction | packages/ensjs/src/functions/wrapName.ts:85-86 | a falsy resolver address is replaced by the public resolver's; a truthy one reaches either path's transaction unchanged |
| WrapName.Deterministic | packages/ensjs/src/functions/wrapName.ts:62-143 | two environments that give the same answers to the builder's questions give the same outcome |
| WrapName.VitalikEthIsEthPath | packages/ensjs/src/functions/wrapName.ts:88-91 | "vitalik.eth" takes the .eth path, with first label "vitalik" |
| WrapName.SubnameIsGeneric | packages/ensjs/src/functions/wrapName.ts:88-91 | "sub.vitalik.eth" has three labels and takes the generic path |
| WrapName.MydaoIsGeneric | packages/ensjs/src/functions/wrapName.ts:88-91 | "mydao.xyz" has two labels but the second is not "eth", so it takes the generic path |
| WrapName.BareEthExamples | packages/ensjs/src/functions/wrapName.ts:88-91 | "eth" takes the generic path; ".eth" takes the .eth path with an empty first label |
| WrapName.NumericFuseExamples | packages/ensjs/src/functions/wrapName.ts:97-111 | 255 gives "ff", 16 gives "10", -1 gives "-1", undefined gives "0", and a boolean is refused as "boolean" |
| WrapName.VitalikEthScenario | packages/ensjs/src/functions/wrapName.ts:91-125 | "vitalik.eth" with no options gives the registrar transfer with fuses "0", the expiry resolved for an absent one, and the public resolver |
| WrapName.SubnameWithFusesScenario | packages/ensjs/src/functions/wrapName.ts:127-130 | "sub.vitalik.eth" with a fuse option set is refused with the fuse error |
| WrapName.MydaoWithoutApprovalScenario | packages/ensjs/src/functions/wrapName.ts:44-53 | "mydao.xyz" without approval is refused with the approval error |

## Left out

- Reading the signer's address and fetching the contract handles and the public resolver (async I/O) are not modelled. Their results are fields of `Env`.
- Collaborator failures are not modelled. This covers a rejected promise and a throwing `makeExpiry` or encoder; every collaborator is a total function.
- `solidityKeccak256`, `defaultAbiCoder.encode`, `hexEncodeName` and `generateFuseInput` are uninterpreted functions in `Env`. Their bodies are not part of this model.
- `populateTransaction` is not modelled. `WrapTx` holds the target contract, the method and the arguments, not the ABI-encoded calldata.
- How the ABI encoder reads the fuse string as a `uint32` is not modelled. In particular, the model does not decide whether the encoder reads the base-16 string of a number as hexadecimal. The model only fixes the string that is passed.
- `wrappedLabelLengthCheck` is the predicate `labelLengthOk` in `Env`. Its byte limit lives in a file outside this model. So the boundary behaviour (the limit itself accepted, one byte more refused) is not stated.
- JavaScript numbers are modelled by integer values only. NaN, infinities, fractional values and negative zero are not modelled. Nor is their `toString(16)` output.
- `Number` holds any integer, including magnitudes beyond 2^53 that no JavaScript number represents exactly. No property of the model depends on that bound.
- FuseShapesAgree: it relates an option set only to the string `generateFuseInput` makes of it, not to a number. The output format of `generateFuseInput` lives outside this model. The code also does not canonicalise string fuses, so "0xff", "ff" and "FF" stay distinct fuse strings.
- The error message texts are not modelled. Each refusal is a `WrapError` constructor. The label-length refusal's own error comes from a file outside this model.
- Signing and broadcasting the returned transaction are outside this code.
