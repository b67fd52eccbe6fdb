# Wallet chain plugins: transfer engines, amounts, events and links

This project models the chain-independent core of a set of wallet chain plugins for TON,
TRON and EVM networks (Ethereum and blockscout-indexed chains), and proves properties of
that model in Dafny.

The plugins answer four kinds of request from the wallet host, and the model covers the
logic behind each:

- **Transfers (bake and send).** `bake` turns a requested transfer into an unsigned
  message, a digest for the user to sign (`shouldSign`), a fee estimate and a resumable
  blob (`extraData`). `send` attaches the user's signature to that blob and submits it.
  - On TON this means:
    - classifying the recipient (DNS name, raw or friendly address);
    - picking the wallet contract (V4, then V3R2);
    - laying out the V3/V4 signing body bit by bit in a cell builder;
    - the TEP-74 jetton `transfer` body;
    - estimating the fee by emulation;
    - checking that amount plus fee fits the balance.
  - On EVM chains it means a type-2 (EIP-1559) transaction, the token and native balance
    guards, and the fee `gas × (maxFeePerGas + maxPriorityFeePerGas)`.
  - On TRON it means dispatching by asset kind, the TronGrid request defaults, the
    contract-call fee, the energy price read from the node, and the base64 blob.
- **Amounts.** `bn(value, decimals)` writes an integer amount of base units as decimal text.
- **Events and assets.**
  - TON account events, TRON TRC-10/TRC-20 transfers and blockscout transactions and token
    transfers are normalised into the wallet's `Event` records. This covers direction, sign,
    status, hashes, fees and images.
  - The paginated fetch loops that collect them are modelled as well.
  - Blockscout token balances become ERC-20 `Asset` records.
- **Links.** The TON `ton://transfer` QR code reader and writer, and the tronscan,
  tonviewer and etherscan links for an event or an asset.

### How the model is built

- **Opaque code and network reads.** Everything the plugins obtain from code that is not
  modelled becomes a field of function type in a record passed as a parameter. This
  covers the node, explorer and RPC HTTP answers, wallet address derivation, address
  parsing and rendering, cell hashing and BOC serialisation, Base58 decoding, ABI encoding,
  transaction hashing and serialisation, signature parsing (`Signature.from`), JSON, the
  `URL` class and fee emulation. Examples are `TonMessages.Ton`, `TronGrid.Node`, `EvmMessages.Rpc`, `BlockscoutApi.Explorer` and
  `TonQr.Library`.
- **Assumptions about that code.** Where a proof needs one, it is a ghost predicate
  required by the lemma that uses it: a codec that round-trips (`TronMessages.Faithful`,
  `EvmMessages.Faithful`, `TonMessages.BocFaithful`), an explorer that serves a list page
  by page (`TronEvents.Serves`), or a sort that only reorders (`TronEvents.Reorders`).
- **Clock and network flag.** The clock (`now`) and the testnet flag are parameters.
- **Implemented for real.** These are written out in full and proved:
  - decimal and hexadecimal text;
  - JavaScript `parseInt`, `BigInt(text)`, ASCII case mapping and `split`;
  - base64 as section 4 of RFC 4648 defines it, with Node's lenient decoder;
  - the bit layout of TON cells (unsigned integers, `VarUInteger 16` coins, standard
    addresses, bytes).
- **Imperative parts.** Where the source updates state step by step, so does the model:
  - the cell builder (`TonCell.Builder`);
  - the `Object.assign`/`delete` target (`JsObjects.JsObject`);
  - the EVM `Transaction` object;
  - the event record that `update` changes (`Plugin.EventRecord`);
  - the fetch and fold loops.

  Each such method is proved equal to a recursive specification function, and the
  properties are proved about that function.

### Where the model follows the code

In three places the model follows the code exactly:

- The TRON contract fee subtracts the energy penalty when it exceeds the energy used
  (`TRON/source/services/trongrid.ts:269-271`). `TronGrid.ContractFeeCases` shows that the
  fee is then negative.
- A blockscout transaction whose fee is only a maximum still reports `incomplete: false`,
  because the local `incomplete` flag is never used
  (`@tls/blockscout/source/methods/fetchTransactions.ts:145-165`).
- The TRON fetch and the TRON contract bake are modelled as written, each beside a
  corrected version. The TON event pipeline takes the dating rule as a parameter
  (`TonEvents.Dating`): `AsWritten` is the source's `parseFloat("timestamp.k")`, `Padded`
  the corrected date, and every lemma about the pipeline holds for both. The EVM bake
  likewise takes the gas estimate request as a parameter (`EvmMessages.GasQuery`):
  `FromOnly` as written, `WholeTransaction` corrected. See "## Findings".

## Model

| member | source | states |
|---|---|---|
| Units.BnIntegerPart | @tls/utilites/source/index.ts:2-8 | the text up to the first "." is the quotient `value / 10^decimals` truncated toward zero, as BigInt division does |
| Units.BnPointIff | @tls/utilites/source/index.ts:9-16 | a "." appears exactly when the amount is positive and not a multiple of `10^decimals` |
| Units.BnFraction | @tls/utilites/source/index.ts:10-15 | the fraction is the remainder padded to `decimals` digits with trailing zeros dropped: 1 to `decimals` digits, never ending in "0", worth the remainder |
| Units.BnRoundTrip | @tls/utilites/source/index.ts:1-19 | for a non-negative amount, reading the text back as a decimal scaled by `10^decimals` gives the amount |
| Units.BnNoDecimals | @tls/utilites/source/index.ts:3-9 | with no decimals the text is the integer itself |
| Units.BnNegative | @tls/utilites/source/index.ts:5-9 | a negative amount loses its fraction (BigInt `%` keeps the dividend's sign) and one above `-10^decimals` prints as "0" |
| Units.BnOfText | @tls/utilites/source/index.ts:2 | `BigInt(value)` throws a SyntaxError exactly when the text is not an integer literal; otherwise the result is `bn` of its value |
| Units.BnOfIntegerText | @tls/utilites/source/index.ts:1-19 | the decimal text of any integer converts without error |
| JsObjects.Assign | TON/source/services/utilites.ts:15 | `Object.assign`: the keys of both objects; the source's value wins, the target keeps the rest |
| JsObjects.Without | TRON/source/services/trongrid.ts:246-247 | `delete`: exactly the named keys are gone, the others keep their values |
| JsObjects.JsObject.AssignFrom | TON/source/services/utilites.ts:15 | the object's fields become `Object.assign` of its old fields and the source's |
| JsObjects.JsObject.Delete | TRON/source/services/trongrid.ts:246-247 | the object's fields lose exactly the deleted key |
| JsObjects.Defaults | TON/source/services/utilites.ts:13-17 | `defaults` returns the defaults object itself, updated so that every given field overrides its default and the other defaults stay |
| TonCell.ToRawString | TON/source/services/utilites.ts:26 | the raw form of an address is `workchain:hash` |
| TonCell.RawStringRoundTrip | TON/source/services/utilites.ts:26-31 | the raw form reads back as the address's workchain and hash |
| TonCell.RawStringInjective | TON/source/services/utilites.ts:26-33 | two addresses have the same raw form exactly when they are equal, so the wallet match compares addresses |
| TonCell.UintRoundTrip | TON/source/services/utilites.ts:49-58 | `storeUint(v, w)` writes `w` bits that read back as `v` when `v < 2^w` |
| TonCell.OnesValue | TON/source/services/utilites.ts:50-53 | 32 one-bits read as `2^32 - 1` |
| TonCell.BytesRoundTrip | TON/source/providers/messagesProvider.ts:178 | stored bytes read back unchanged |
| TonCell.CoinsBits | TON/source/providers/messagesProvider.ts:220-223 | `VarUInteger 16` coins can be stored exactly for `0 <= v < 2^120` |
| TonCell.CoinsRoundTrip | TON/source/providers/messagesProvider.ts:228 | stored coins (a 4-bit byte length, then the value) read back as the value, leaving what follows |
| TonCell.AddressBits | TON/source/providers/messagesProvider.ts:229-230 | a standard address takes 267 bits |
| TonCell.AddressRoundTrip | TON/source/providers/messagesProvider.ts:229-230 | a stored address reads back as the same address, leaving what follows |
| TonCell.WorkchainRoundTrip | TON/source/providers/messagesProvider.ts:229-230 | the 8-bit signed workchain reads back as itself |
| TonCell.Builder.constructor | TON/source/services/utilites.ts:78 | `beginCell()` starts with no bits and no refs |
| TonCell.Builder.StoreUint | TON/source/services/utilites.ts:49 | appends the `w`-bit big-endian value and keeps the refs |
| TonCell.Builder.StoreBit | TON/source/services/utilites.ts:52 | appends one bit and keeps the refs |
| TonCell.Builder.StoreRef | TON/source/services/utilites.ts:61 | appends one ref and keeps the bits |
| TonCell.Builder.EndCell | TON/source/providers/messagesProvider.ts:165-167 | the cell holds exactly the builder's bits and refs |
| TonWallet.GetWalletContract | TON/source/services/utilites.ts:19-36 | an unparseable author address throws; V4 when its address matches the author's (even if V3R2 also does), V3R2 only when V4 does not and it does, none when neither does |
| TonWallet.SendModeOr | TON/source/services/utilites.ts:44-47 | the given send mode, or PAY_GAS_SEPARATELY when none is given |
| TonWallet.ValidUntilBits | TON/source/services/utilites.ts:50-56 | the expiry field is 32 bits |
| TonWallet.ValidUntilValue | TON/source/services/utilites.ts:50-56 | the expiry reads as `2^32 - 1` for seqno 0, else `floor(now / 1000) + 60` |
| TonWallet.ModeBitsRead | TON/source/services/utilites.ts:59-62 | each message's 8-bit slot holds the send mode |
| TonWallet.StoreHeader | TON/source/services/utilites.ts:49-58 | the builder holds walletId, expiry and seqno and no refs |
| TonWallet.StoreMessages | TON/source/services/utilites.ts:59-62 | the loop appends a mode byte per message and one ref per message, in order; more than four refs fail |
| TonWallet.V3SigningMessage | TON/source/services/utilites.ts:38-65 | the V3 builder produces the V3 signing cell, or fails when there are too many messages for the refs |
| TonWallet.V4SigningMessage | TON/source/services/utilites.ts:67-97 | the V4 builder produces the V4 signing cell, or fails when there are too many messages for the refs |
| TonWallet.V3Layout | TON/source/services/utilites.ts:49-63 | the V3 body is walletId, validUntil, seqno (32 bits each) then an 8-bit mode per message: `96 + 8n` bits and `n` refs, ref `k` the k-th message |
| TonWallet.V4InsertsSimpleOrder | TON/source/services/utilites.ts:78-95 | the V4 body is the V3 body with a zero "simple order" byte after seqno: `104 + 8n` bits, same refs |
| TonMessages.Recipient | TON/source/providers/messagesProvider.ts:43-63 | "Invalid address" exactly when the recipient is neither a DNS name, nor raw, nor friendly |
| TonMessages.RecipientBounce | TON/source/providers/messagesProvider.ts:46-60 | bounce is set only for a friendly address that says so; a DNS name resolves to the parsed address |
| TonMessages.JettonTransferBody | TON/source/providers/messagesProvider.ts:214-235 | the body can be built exactly when both coin amounts fit `VarUInteger 16`; it has no refs and fits a cell |
| TonMessages.AddressedRoundTrip | TON/source/providers/messagesProvider.ts:229-232 | destination, response, no custom payload and forward amount read back |
| TonMessages.JettonBodyRoundTrip | TON/source/providers/messagesProvider.ts:220-234 | the body reads back as TEP-74 `transfer` with op `0xf8a7ea5`, query id 0, the amount, destination, response and forward amount |
| TonMessages.Outgoing | TON/source/providers/messagesProvider.ts:77-114 | a coin transfer is one internal message to the recipient for the amount with the recipient's bounce flag; a jetton transfer attaches the fixed gas amount |
| TonMessages.JettonMessage | TON/source/providers/messagesProvider.ts:90-113 | a jetton transfer goes to the author's jetton wallet, bounceable, for 640 000 000 nanotons, and its body is the TEP-74 transfer of the amount to the recipient with the author as response and forward amount 1 |
| TonMessages.PlaceholderSignature | TON/source/providers/messagesProvider.ts:137 | the emulated signature is 64 bytes |
| TonMessages.Emulated | TON/source/providers/messagesProvider.ts:138-154 | the emulated external message goes to the wallet, carries `init` exactly when the wallet is not deployed, and its body is 512 signature bits then the signing cell |
| TonMessages.EstimatedFee | TON/source/providers/messagesProvider.ts:135-158 | the fee is `abs(extra)` when emulation answers and 0 when it fails |
| TonMessages.BakeWith | TON/source/providers/messagesProvider.ts:70-168 | "Not enough balance" exactly when amount plus fee exceeds the balance; otherwise `shouldSign` and `extraData` are the hash and BOC of the same signing cell and the fee is `bn(fee, 9)` |
| TonMessages.Bake | TON/source/providers/messagesProvider.ts:39-169 | recipient errors first, then wallet errors before any balance or seqno read, then the outcome of `BakeWith` |
| TonMessages.SigningCellSize | TON/source/providers/messagesProvider.ts:116-133 | the signing cell of one message has at most 112 bits and that message's one ref |
| TonMessages.Send | TON/source/providers/messagesProvider.ts:171-195 | a missing blob fails before anything is sent; what is sent starts with the signature bytes and goes to the author's wallet |
| TonMessages.SendAfterBake | TON/source/providers/messagesProvider.ts:164-181 | sending a baked blob submits the signature followed by the signing cell's own bits and refs, nothing recomputed |
| TronGrid.DropLast | TRON/source/services/trongrid.ts:12 | `slice(0, -n)` keeps all but the last `n` characters |
| TronGrid.HexDigitsHaveNoX | TRON/source/services/trongrid.ts:10-11 | hex digits never contain an "x" |
| TronGrid.Base58HexPrefix | TRON/source/services/trongrid.ts:9-15 | the hex form drops the 8-digit checksum and starts with "0x" exactly when the digits start with "41" |
| TronGrid.TronAddressToHex | TRON/source/services/trongrid.ts:62-68 | a TRON address (hex starting "41") converts to "0x…" |
| TronGrid.GetEnergyPrice | TRON/source/services/trongrid.ts:319-325 | no price list gives the default 420 |
| TronGrid.EnergyPriceFromLastEntry | TRON/source/services/trongrid.ts:327-341 | only the last comma-separated `time:price` entry counts, and its non-zero price is the result |
| TronGrid.EnergyPriceOfNumeral | TRON/source/services/trongrid.ts:327-341 | for any numeral without ',' or ':' in the last entry, the price is what `parseInt` reads from it, 420 when that is NaN or 0 |
| TronGrid.EnergyPriceMalformedEntry | TRON/source/services/trongrid.ts:332-335 | a last entry without exactly one ":" gives 420 |
| TronGrid.ContractFeeCases | TRON/source/services/trongrid.ts:266-276 | no fee when the constant call fails, `energy × price` without a larger penalty, and a negative fee when the penalty exceeds the energy |
| TronGrid.CreateTRXTransaction | TRON/source/services/trongrid.ts:150-154 | the request is the arguments over `visible: true`, a caller's `visible` winning |
| TronGrid.CreateAssetTransaction | TRON/source/services/trongrid.ts:165-169 | the request is the arguments over `visible: true`, a caller's `visible` winning |
| TronGrid.ContractRequestShape | TRON/source/services/trongrid.ts:237-252 | the trigger request has the `transfer(address,uint256)` selector and the ABI parameter, no `amount` or `to_address`, defaults for `call_value` and `visible`, and the caller's other fields |
| TronGrid.RewriteForCall | TRON/source/services/trongrid.ts:241-247 | the caller's request object gains the selector and parameter and loses `amount` and `to_address`; every other field is unchanged |
| TronGrid.PriceCall | TRON/source/services/trongrid.ts:267-275 | a failed dry run costs 0; otherwise the energy used (less a larger non-zero penalty) times the energy price |
| TronGrid.CreateContractTransaction | TRON/source/services/trongrid.ts:234-278 | an unconvertible recipient fails before any change; otherwise the arguments are updated in place, the trigger request is posted, and the result is the transaction and fee, or "Can't build TRX-20 transaction" |
| Base64.Encode | TRON/source/providers/messagesProvider.ts:17 | base64 text comes in groups of four characters, `4⌈n/3⌉` of them |
| Base64.RoundTrip | TRON/source/providers/messagesProvider.ts:16-22 | decoding the base64 of some bytes gives the bytes back |
| Base64.SkipsForeign | TRON/source/providers/messagesProvider.ts:73 | Node's decoder skips characters outside the alphabet |
| JsText.HexRoundTrip | TRON/source/providers/messagesProvider.ts:59 | decoding the hex text of some bytes gives the bytes back |
| JsText.HexEncodeDecode | TRON/source/providers/messagesProvider.ts:59 | a canonical (lower-case, even-length) hex txID survives decoding and re-encoding, so no information is lost on the way to `shouldSign` |
| TronMessages.BlobRoundTrip | TRON/source/providers/messagesProvider.ts:16-22 | the resumable blob decodes to the baked transaction it encodes, and is never empty |
| TronMessages.Create | TRON/source/providers/messagesProvider.ts:31-56 | "_" is a TRX transfer, a TRON address a contract call, anything else a TRC-10 asset transfer, each with its request |
| TronMessages.ContractRequestLimits | TRON/source/providers/messagesProvider.ts:42-48 | the contract call carries the 100 TRX fee limit, the asset as contract and the sender as owner |
| TronMessages.BakeAsWritten | TRON/source/providers/messagesProvider.ts:35-64 | as written, TRX and TRC-10 transfers sign the id of the transaction built for them, and every contract-call bake fails, because the fee pair stands where a transaction is expected |
| TronMessages.Bake | TRON/source/providers/messagesProvider.ts:31-65 | a TRX transfer signs the id of the `createTransaction` result and a TRC-10 transfer that of the `transferAsset` result, both over `visible: true` defaults; a contract call fails on a bad amount, a bad parameter or a failed call, else signs the id of the transaction of the `[transaction, fee]` pair; `shouldSign` is that txID re-encoded as base64, the fee 0 and the blob the transaction |
| TronMessages.Send | TRON/source/providers/messagesProvider.ts:67-89 | a missing blob fails before any submission; the submitted signature list is the hex of the decoded user signature |
| TronMessages.SendAfterBake | TRON/source/providers/messagesProvider.ts:58-88 | sending a baked blob submits that transaction with one signature; a non-zero code becomes `PluginError(code, message ?? "")`, else the result is the txid |
| EvmMessages.Endpoint | @tls/evm/source/messagesProvider.ts:24-30 | the testnet endpoint on testnet, else the mainnet one |
| EvmMessages.ChainId | @tls/evm/source/messagesProvider.ts:32-38 | the testnet chain id on testnet, else the mainnet one |
| EvmMessages.Transaction.constructor | @tls/evm/source/messagesProvider.ts:57 | a new transaction has empty fields |
| EvmMessages.Transaction.From | @tls/evm/source/messagesProvider.ts:131 | `Transaction.from` holds the given fields |
| EvmMessages.Payload | @tls/evm/source/messagesProvider.ts:80-100 | a coin transfer sends the amount to the recipient with data "0x"; a token transfer sends 0 to the token with the transfer calldata, or "Not enough token balance" |
| EvmMessages.Fees | @tls/evm/source/messagesProvider.ts:113 | the fee is `gas × (maxFeePerGas + maxPriorityFeePerGas)` when both are known |
| EvmMessages.SetPayload | @tls/evm/source/messagesProvider.ts:80-99 | a native transfer points the transaction at the recipient with data "0x" and sends the amount; a token transfer fails on an insufficient token balance, else points at the token contract with the encoded `transfer` call and sends no value |
| EvmMessages.Bake | @tls/evm/source/messagesProvider.ts:54-126 | error order: amount syntax, unresolvable recipient, token balance, gas estimate, fee data, then "Not enough balance" when fee plus value exceeds the balance; otherwise the baked transaction with the gas limit the node estimates for the request `query` makes (as written, `FromOnly`: the author alone, since `Object.assign` copies no field of the transaction) |
| EvmMessages.GasIgnoresTransfer | @tls/evm/source/messagesProvider.ts:103-110 | as written, the estimate request is `{from}` with no transaction field, the same for every transfer from one author |
| EvmMessages.GasRequestShape | @tls/evm/source/messagesProvider.ts:80-110 | asked of the whole transaction, the request carries the sender, the destination, value and data of the transfer, and distinct transactions give distinct requests |
| EvmMessages.BakedTransactionShape | @tls/evm/source/messagesProvider.ts:57-118 | the transaction is type 2 with no gas price, the fee caps from fee data, the chain id for the network, the sender's nonce and the gas estimate as limit |
| EvmMessages.Send | @tls/evm/source/messagesProvider.ts:128-140 | a missing or unreadable blob throws; "0x" + hex of the decoded user signature is read by `Signature.from`, whose refusal throws before anything is submitted; otherwise the raw signed transaction is submitted and the event hash is its hash |
| EvmMessages.SendAfterBake | @tls/evm/source/messagesProvider.ts:124-131 | the blob of a baked transaction reads back as that transaction |
| TonEvents.ParseActionOutcome | TON/source/providers/eventsProvider.ts:364-398 | an action yields an event exactly when it is of a shown kind; only a jetton amount `bn` cannot read fails |
| TonEvents.TransferDirection | TON/source/providers/eventsProvider.ts:260-362 | a TON or jetton transfer sent by the owner is an outcome with NEGATIVE sign and a Recipient field; otherwise an income with POSITIVE sign and a Sender field |
| TonEvents.TonTransferAmount | TON/source/providers/eventsProvider.ts:312-362 | a TON transfer shows its amount in TON with 9 decimals, reading back as the nanotons |
| TonEvents.HashesDistinct | TON/source/providers/eventsProvider.ts:409-412 | the events of one account event have distinct hashes (`event_id`, then `event_id#~#k`) |
| TonEvents.DateCollision | TON/source/providers/eventsProvider.ts:416 | as written, event 10 gets the same date as event 1 and an earlier one than event 2 |
| TonEvents.DatesOrdered | TON/source/providers/eventsProvider.ts:416 | with the index padded to the count's width, dates grow with the index and stay within the event's second |
| TonEvents.EmittedFails | TON/source/providers/eventsProvider.ts:364-447 | for any action parser, once an action fails, parsing the rest fails the same way |
| TonEvents.EmittedOk | TON/source/providers/eventsProvider.ts:364-447 | for any action parser, parsing succeeds exactly when every action parses |
| TonEvents.EmittedEvents | TON/source/providers/eventsProvider.ts:396-443 | for any action parser and either dating rule, there are at most as many events as actions, and the k-th event is numbered `k`: its hash, its date by that rule (`parseFloat("timestamp.k")` as written), status, is_scam, not incomplete, and the Refund/Fees field |
| TonEvents.EmittedAll | TON/source/providers/eventsProvider.ts:364-447 | for any action parser and either dating rule, when every action is shown, there is one event per action, in order, each built from its action and dated by that rule |
| TonEvents.EmittedDateCollision | TON/source/providers/eventsProvider.ts:396-443 | dated as written, an account event with eleven or more shown actions gives its event 10 the date of event 1 and an earlier date than event 2 |
| TonEvents.EmittedDatesOrdered | TON/source/providers/eventsProvider.ts:396-443 | dated with the padded index, the events of an account event are in strictly increasing date order |
| TonEvents.Parse | TON/source/providers/eventsProvider.ts:364-447 | the `forEach` loop returns what `Emitted` gives for the action switch (`ActionParser(address, friendly)` in `ParseEach`) and the dating rule it is handed, so the lemmas above hold of its result, as written (`AsWritten`) and corrected (`Padded`) |
| TonEvents.Update | TON/source/providers/eventsProvider.ts:452-456 | `update` marks the event incomplete and changes nothing else |
| TonEvents.StatusOf | TON/source/providers/eventsProvider.ts:458-460 | `status` always fails with "Unsupported" |
| TonEvents.Ceil | TON/source/providers/eventsProvider.ts:467 | `Math.ceil` is the least integer not below its argument |
| TonEvents.Bounds | TON/source/providers/eventsProvider.ts:466-472 | the window is [ceil(after), ceil(now)] or [0, ceil(before)] |
| TonEvents.RequestShape | TON/source/providers/eventsProvider.ts:480-490 | each request asks for 50 events of all subjects in the window, `before_lt` only after a non-zero cursor |
| TonEvents.PagesStart | TON/source/providers/eventsProvider.ts:479-506 | a failed first request gives no events, and a short first page is all there is |
| TonEvents.FetchPages | TON/source/providers/eventsProvider.ts:474-506 | the `while` loop collects the pages of the specification, stopping on an error, an empty or a short page |
| TonEvents.ParsedAllFails | TON/source/providers/eventsProvider.ts:508 | for any per-event parser, once an account event fails, the whole fetch fails the same way |
| TonEvents.ParsedAllOk | TON/source/providers/eventsProvider.ts:508 | for any per-event parser, the fetch succeeds exactly when every account event parses |
| TonEvents.ParseEach | TON/source/providers/eventsProvider.ts:508 | `flatMap` concatenates the events of each account event, parsed with the given action switch and dating rule, in order, and fails with the first account event that fails |
| TonEvents.Fetch | TON/source/providers/eventsProvider.ts:462-509 | `fetch` is the parse, with the account's action switch and the given dating rule (`AsWritten` for the source as written), of the pages collected for the window, so `ParsedAllOk` and `ParsedAllFails` describe its outcome |
| TronEvents.CurrencyOptionsFor | TRON/source/providers/eventsProvider.ts:17-32 | income is POSITIVE, outcome NEGATIVE, any other kind none |
| TronEvents.TransferDirection | TRON/source/providers/eventsProvider.ts:43-119 | from the owner is an outcome with a Receipt field to the recipient, else an income with a Sender field; the currency is the uppercased abbreviation; the amount reads back in the token's decimals |
| TronEvents.Trc10Events | TRON/source/providers/eventsProvider.ts:203-215 | one event per TRC-10 transfer |
| TronEvents.Trc20Events | TRON/source/providers/eventsProvider.ts:217-229 | one event per TRC-20 transfer |
| TronEvents.Trc10EventsShape | TRON/source/providers/eventsProvider.ts:203-215 | each TRC-10 event has the transfer's hash, date in seconds, success, incomplete, the token id, and malicious exactly when tokenCanShow > 2 |
| TronEvents.Trc20EventsShape | TRON/source/providers/eventsProvider.ts:217-229 | each TRC-20 event has the transfer's id, date in seconds, success, incomplete, the contract, and malicious exactly when tokenCanShow > 2 |
| TronEvents.Update | TRON/source/providers/eventsProvider.ts:128-145 | the event becomes complete with exactly one Fees field appended after the kept fields; an unknown transaction fails and changes nothing |
| TronEvents.StatusOf | TRON/source/providers/eventsProvider.ts:147-156 | SUCCESS is success and anything else failed |
| TronEvents.RequestAt | TRON/source/providers/eventsProvider.ts:162-181 | a request asks for 1000 transfers from the given start, in milliseconds from `after`, or from TRON's genesis to `before` |
| TronEvents.RequestAsWritten | TRON/source/providers/eventsProvider.ts:173-200 | as written, the loop makes exactly one request per list, from the start |
| TronEvents.FetchAsWritten | TRON/source/providers/eventsProvider.ts:158-234 | as written, `fetch` reorders the events of the first page of each list |
| TronEvents.FetchKeepsEvents | TRON/source/providers/eventsProvider.ts:231-233 | the reordering keeps every TRC-10 and TRC-20 event |
| TronEvents.CollectedAll | TRON/source/providers/eventsProvider.ts:173-201 | paging on to the first short page collects the whole list |
| TronEvents.CollectList | TRON/source/providers/eventsProvider.ts:173-201 | the corrected loop pages until a short page |
| TronEvents.Fetch | TRON/source/providers/eventsProvider.ts:158-234 | the corrected `fetch` reorders the events of the two full lists |
| TronEvents.FetchComplete | TRON/source/providers/eventsProvider.ts:174-200 | the corrected fetch sees every transfer the explorer holds |
| TronEvents.FirstPageOnly | TRON/source/providers/eventsProvider.ts:173-234 | with more than a page of TRC-10 transfers served, `FetchAsWritten` returns the sorted events of the first page of each list only (or their parse error), fewer events than transfers served |
| TronImages.ImageWithTokenInfo | TRON/source/services/utilites.ts:4-12 | an image exactly when there is token info with a non-empty logo, whose URL is that logo |
| TronImages.ImageWithAsset | TRON/source/services/utilites.ts:14-22 | an image exactly when there is an asset with a non-empty token URL, whose URL is that one |
| TronImages.ImagesWithTokenInfo | TRON/source/providers/eventsProvider.ts:34-41 | the list holds that image, or nothing |
| BlockscoutApi.TokenBn | @tls/blockscout/source/methods/fetchTokenTransfers.ts:104 | `bn` on explorer text fails exactly on text that is not an integer or a decimals count outside 0..22 |
| BlockscoutApi.TokenDecimals | @tls/blockscout/source/methods/fetchTokenTransfers.ts:81 | `parseInt(decimals)`, or the network's decimals when that is 0 or NaN |
| BlockscoutApi.KeptDated | @tls/blockscout/source/methods/fetchTransactions.ts:30-42 | an item kept by the strict millisecond filter is dated inside the window |
| BlockscoutApi.KeptExactly | @tls/blockscout/source/methods/fetchTransactions.ts:30-42 | the filter keeps exactly the items strictly inside the window, in order; it keeps all of them exactly when all are inside |
| BlockscoutApi.ParseKeptKeeps | @tls/blockscout/source/methods/fetchTransactions.ts:44-48 | what a parser promises about in-window items holds for every event of a page |
| BlockscoutApi.WalkPages | @tls/blockscout/source/methods/fetchTransactions.ts:20-54 | the `while` loop passes each page's cursor on and stops on an empty filtered page, a filtered-out item or no cursor |
| BlockscoutApi.WalkKeeps | @tls/blockscout/source/methods/fetchTransactions.ts:20-56 | every event of the walk has what the parser promises |
| BlockscoutApi.WalkFirstPage | @tls/blockscout/source/methods/fetchTransactions.ts:20-53 | the walk starts with the first page's events, and goes on only when that page was entirely inside the window |
| BlockscoutEvents.FeeText | @tls/blockscout/source/methods/fetchTransactions.ts:149-157 | a fee is `bn` of its value in the network's decimals and symbol; it fails on text that is not an integer |
| BlockscoutEvents.ParseTransaction | @tls/blockscout/source/methods/fetchTransactions.ts:100-184 | "token_transfer" gives no event; the error cases; the hash, date, status, asset "_" and image; the kind (Approval, Contract execution, outcome, income); the amount; Recipient or Sender, and Fees unless the fee is a maximum |
| BlockscoutEvents.TransactionAmount | @tls/blockscout/source/methods/fetchTransactions.ts:172-178 | the amount shown reads back as the transaction's value |
| BlockscoutEvents.FetchTransactions | @tls/blockscout/source/methods/fetchTransactions.ts:13-57 | the fetch is the walk over transaction pages, and each event is dated in the window, complete, not malicious, on the coin |
| BlockscoutEvents.TransactionsInWindow | @tls/blockscout/source/methods/fetchTransactions.ts:30-56 | every transaction event is dated in the window and shaped as above |
| BlockscoutEvents.ParseTokenTransfer | @tls/blockscout/source/methods/fetchTokenTransfers.ts:46-115 | fails exactly without a total or on an unreadable amount; otherwise success, incomplete, the token's address, direction, an image exactly when `icon_url` is truthy, and the amount in the token's decimals |
| BlockscoutEvents.TransferAmount | @tls/blockscout/source/methods/fetchTokenTransfers.ts:81-104 | the amount shown reads back as the transfer's total |
| BlockscoutEvents.FetchTokenTransfers | @tls/blockscout/source/methods/fetchTokenTransfers.ts:14-126 | the fetch is the walk over transfer pages, and each event is dated in the window and incomplete |
| BlockscoutEvents.TransfersInWindow | @tls/blockscout/source/methods/fetchTokenTransfers.ts:32-125 | every transfer event is dated in the window |
| BlockscoutEvents.TransactionFees | @tls/blockscout/source/methods/fetchTransactions.ts:72-87 | no fee for an unknown transaction or a maximum fee, an error on an unreadable fee, else the fee text |
| BlockscoutEvents.TransactionStatus | @tls/blockscout/source/methods/fetchTransactions.ts:89-98 | the transaction's status, or none for an unknown one |
| BlockscoutProvider.Erc20 | @tls/blockscout/source/methods/fetchOtherTokens.ts:8-12 | exactly the ERC-20 balances are kept |
| BlockscoutProvider.Erc20Append | @tls/blockscout/source/methods/fetchOtherTokens.ts:74 | the filter keeps the input order |
| BlockscoutProvider.TokenFields | @tls/blockscout/source/methods/fetchOtherTokens.ts:19-44 | Name, then Price in USD only when positive, then the copyable Contract Address |
| BlockscoutProvider.TokenAsset | @tls/blockscout/source/methods/fetchOtherTokens.ts:8-71 | an asset when `bn` can read the balance: symbol, address, fungible, not malicious, the fallback decimals, the quantity, an icon exactly when `icon_url` is truthy, and the fields |
| BlockscoutProvider.AssetsOf | @tls/blockscout/source/methods/fetchOtherTokens.ts:8-74 | one asset per balance in order, or the error of a balance that fails |
| BlockscoutProvider.OtherTokens | @tls/blockscout/source/methods/fetchOtherTokens.ts:6-75 | one asset per ERC-20 balance, in order; it fails only on an ERC-20 balance `bn` cannot read |
| BlockscoutProvider.OtherKindsIgnored | @tls/blockscout/source/methods/fetchOtherTokens.ts:10-12 | a balance of another kind changes nothing |
| BlockscoutProvider.Fetch | @tls/blockscout/source/index.ts:31-64 | events are the transaction events then the token-transfer events; assets are the coin then the other tokens; the first error wins |
| BlockscoutProvider.Update | @tls/blockscout/source/index.ts:66-83 | the event becomes complete, a Fees field appended exactly when fees are known; an unreadable fee changes nothing |
| BlockscoutProvider.StatusOf | @tls/blockscout/source/index.ts:85-94 | unknown or empty is pending, "ok" success, anything else an error |
| TronBrowser.Url | TRON/source/providers/browserProvider.ts:11-32 | a link exactly when there is an event or an asset; the event's transaction comes first |
| TronBrowser.ReadUrl | TRON/source/providers/browserProvider.ts:19-28 | the link reads back as the event's transaction page, a TRON address's token20 page, or the token page of any other asset ("_" as token 0) |
| TonBrowser.Url | TON/source/providers/browserProvider.ts:12-31 | a link exactly when there is an event or an asset; the event comes first; the coin is the site itself |
| TonBrowser.ReadUrl | TON/source/providers/browserProvider.ts:20-27 | the link reads back as the transaction page, the site, or the account page of the asset's friendly address |
| EthereumBrowser.Url | Ethereum/source/providers/browserProvider.ts:10-29 | a link exactly when there is an event or an asset; the event comes first; the coin is the site itself |
| EthereumBrowser.ReadUrl | Ethereum/source/providers/browserProvider.ts:18-25 | the link reads back as the transaction page, the site, or the token's page |
| TonQr.LastValue | TON/source/providers/qrProvider.ts:59-78 | the value of the last parameter whose lower-cased key matches, if any |
| TonQr.FoldAmount | TON/source/providers/qrProvider.ts:72-74 | the amount is the last `amount` value, verbatim |
| TonQr.FoldUnsupported | TON/source/providers/qrProvider.ts:59-71 | unsupported exactly when some key is `bin`, `text` or `init`, or some `jetton` (or fall-through) value does not parse |
| TonQr.FoldAsset | TON/source/providers/qrProvider.ts:65-70 | when supported, the asset is the raw form of the last `jetton` value |
| TonQr.ReadQuery | TON/source/providers/qrProvider.ts:54-78 | the `forEach` loop computes the fold of the specification |
| TonQr.Recipient | TON/source/providers/qrProvider.ts:35-52 | raw is non-bounceable, friendly keeps its flag, anything else is refused |
| TonQr.Resolved | TON/source/providers/qrProvider.ts:19-93 | an action exactly when the URL parses, is `ton:`, names an address and has no refused parameter |
| TonQr.ResolvedFields | TON/source/providers/qrProvider.ts:84-90 | the action's amount and asset are the last values of their parameters |
| TonQr.Resolve | TON/source/providers/qrProvider.ts:19-93 | `resolve` returns the action of the specification |
| TonQr.Generate | TON/source/providers/qrProvider.ts:95-110 | `ton://transfer/` and the non-bounceable recipient, with `?jetton=` exactly when an asset other than "_" is named; other purposes give none |
| TonQr.GenerateThenResolve | TON/source/providers/qrProvider.ts:95-110 | reading a generated code back gives the recipient, the jetton's raw form and no amount |

## Left out

- Network reads, HTTP clients and response types are function-typed parameters. Their
  failures are modelled where the source reacts to them. This covers the TON emulation and
  the TON/TRON event pages; elsewhere a read is taken to answer.
- Address derivation and parsing, cell hashing, BOC, Base58, ABI encoding, transaction
  hashing and serialisation, JSON and the `URL` class are parameters. Round trips of
  JSON and BOC are assumed through the predicates named above.
- Floating point: `calculateTotalPrice`, the `parseFloat` price of a token and the text
  of that price are parameters (`BlockscoutProvider.Pricing`), and the asset's `pricing`
  object is not modelled. Event dates are reals computed exactly.
- Amounts are exact integers, while the source holds some of them in JavaScript numbers,
  which round integers above 2^53: `parseInt(transfer.amount)` in the TRON bake
  (`TronMessages.IntAmount`), and the TON action `amount` and event `extra` formatted
  through template strings. Amounts above 2^53 are therefore not rounded in the model.
- Units.Bn: requires `decimals <= 22`, where `Math.pow(10, decimals)` is still an exact
  power of ten.
- BlockscoutApi.TokenBn: a decimals count above 22 is an error here. The source would
  use an inexact power of ten.
- Strings are sequences of characters, and `toLowerCase`/`toUpperCase` map ASCII letters
  only.
- The fetch loops take a `fuel` bound on the number of pages. A walk that runs out of
  fuel stops as if the last page had come.
- The TRON events sort is a parameter that only reorders; its comparator is not a valid
  ordering, so no order is claimed.
- The blockscout `fetch` computes start and end timestamps it never uses; they are not
  modelled.
- `fetchNativeToken` is a parameter of `BlockscoutProvider.Fetch`. `fetchTransaction`
  (`@tls/blockscout/source/methods/fetchTransactions.ts:59-70`) is called nowhere and is
  not modelled.
- The EVM `send` does not wait for `eth_sendRawTransaction`. The model returns the raw
  transaction it would send and does not model the reply.
- The TON jetton wallet lookup (`resolveJettonAddressFor`) is a parameter returning an
  address or none.
- TonMessages.Bake: requires wallet id, seqno and `now / 1000 + 60` to fit 32 bits
  (`Fits32`). Larger values make `storeUint` throw in the source; that error is not modelled.
- Asset providers, address providers, plugin registration and notification stubs are not
  part of this model.

## Findings

| source | as written | input that shows it | evidently intended | confidence | as-written member | corrected member |
|---|---|---|---|---|---|---|
| TRON/source/providers/messagesProvider.ts:42 | the `[transaction, fee]` pair returned by `createContractTransaction` is stored as a transaction, so `transaction.txID` is undefined and `Buffer.from` throws | any transfer whose asset is a TRON (TRC-20) address | destructure the pair and sign the transaction's id | not executed | TronMessages.BakeAsWritten | TronMessages.Bake |
| TON/source/providers/eventsProvider.ts:416 | the date is `parseFloat("timestamp.k")`, so index 10 reads as `.1` | an account event with eleven shown actions: event 10 is dated like event 1 and before event 2 | dates that grow with the index inside the event's second | not executed | TonEvents.EmittedDateCollision | TonEvents.EmittedDatesOrdered |
| @tls/evm/source/messagesProvider.ts:103-110 | the gas estimate is asked of `Object.assign({from: sender}, transaction)`; an ethers v6 `Transaction` keeps its fields in private slots behind accessors, so the request is `{from}` alone | any transfer, coin or token: the node estimates an empty contract creation from the author, and that estimate becomes the signed gas limit | estimate the transaction itself, from the sender | not executed | EvmMessages.GasIgnoresTransfer | EvmMessages.GasRequestShape |
| TRON/source/providers/eventsProvider.ts:198 | the break test `length % page >= 0` always holds, so each list is requested once | an address with more than 1000 TRC-10 transfers: only the first 1000 are returned | request the next page of a list while the previous page came back full, and stop at the first short page | not executed | TronEvents.FirstPageOnly | TronEvents.FetchComplete |
