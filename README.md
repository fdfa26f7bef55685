# defi-evm-scripts: the SUKU-collateral USDC loan, modelled in Dafny

The system is a set of TypeScript scripts. They take a loan from a
Compound-style lending market. In the newer workflow
(src/scripts/createLoan.ts), a wallet built from a private key does five things:

1. It deposits its SUKU tokens as collateral: it enters the cSUKU and cUSDC markets, approves cSUKU to move the SUKU and mints cSUKU.
2. It reads its account liquidity from the controller (the unitroller).
3. It borrows USDC against that liquidity.
4. It reads its USDC balance.
5. It reports the result as an error-code record.

The legacy workflow (src/createLoan.ts) does only steps 1 to 3. It takes
the controller address from the COMPTROLLER_ADDR environment variable. It
makes no USDC read and returns no record: after the borrow it finishes with
nothing, or it throws at the first step that fails.

This project models four parts:

- **The network registry.** This covers the chain ids, the block-explorer links, the per-chain contract tables for Kovan and the Binance test network, the lookup of a chain's table and the address-shortening helper.
- **The newer workflow**, `createLoan(privateKey, providerUrl, chainId, sukuDecimalAmount?)`. It returns `{error, message}`. Its `error()` helper only logs, so a failed step does not stop the run: the later steps still run with whatever values are set.
- **The legacy workflow**, `createLoan(privateKey, sukuAmount)`. It reads its addresses from environment variables. Its `error()` throws, so the run stops at the first step that fails.
- **The environment configuration**, `getConfig`. It is shared, word for word, by both workflow files.

The chain is not simulated. Everything remote is an input, a `Remote.Oracle`, that fixes what each step of one run receives:

- building the wallet;
- each contract read;
- each transaction and its confirmation.

`None` or `false` in the oracle means that the call threw. Each step is issued at most once per run, so one reply per step covers every reply the chain could give. A run is a function of the request and the oracle. It produces the trace of contract calls issued (a `seq<Remote.Call>`, with their arguments), the records logged through `error()`, and the outcome.

The workflow files mutate local variables step by step. Each is modelled twice:

- a `method` with the same sequence of local updates (`CreateLoan.CreateLoan`, `LegacyCreateLoan.LegacyCreateLoan`);
- a specification function over the whole run (`CreateLoan.Run`, `LegacyCreateLoan.Run`).

Each method's `ensures` ties its result to its function. The properties the workflows promise are then proved about the functions in `CreateLoanProperties` and `LegacyCreateLoanProperties`.

Modules:

- `Options`: optional values.
- `Decimal`: digit strings and ten's powers.
- `Units`: `parseUnits` and `formatUnits` of ethers, on unsigned amounts.
- `NetworkTypes`, `Kovan`, `BinanceTestnet`, `Networks`: the registry.
- `EnvConfig`: `getConfig`.
- `Remote`: the calls and the oracle.
- `LoanMessages`: every message template, as a value. `Text` renders it.
- `CreateLoan` and `CreateLoanProperties`: the newer workflow.
- `LegacyCreateLoan` and `LegacyCreateLoanProperties`: the legacy workflow.

Behaviours of the code that the model keeps:

- **Undefined values are truthy-checked.** A BigNumber is always truthy. So `sukuBalance || 0` and `accountLiquidity || 0` choose 0 only when the value was never set. A zero balance or liquidity is still used, and it is not replaced by 0.
- **Both liquidity fallbacks fire on a thrown read.** In the newer workflow the fallback check `if (!accountLiquidity)` fires only when the liquidity read threw. In that case two records are logged: a TRANSACTION_ERROR and an ACCOUNT_LIQUIDITY.
- **The newer workflow borrows the full liquidity.** It borrows the whole reported liquidity, which may be zero. This is also true after a nonzero error code. The inline comment speaks of borrowing half; the model follows the code.
- **The legacy workflow re-throws liquidity problems under one message.** Inside the liquidity `try`, a nonzero error code or zero liquidity throws. That throw is caught and re-thrown as "Error obtaining account liquidity for: …". So every liquidity problem ends the legacy run with that one message.
- **The legacy workflow has an unreachable fallback.** Its check `if (!accountLiquidity)` (src/createLoan.ts:198-200) can never fire once the `try` completed. The model keeps this branch in `LegacyCreateLoan.RunTransactions` and proves that it is dead.

## Model

| member | source | states |
|---|---|---|
| Networks.ChainIdsDistinct | src/contracts/networks/index.ts:17-23 | the five known chain ids (1, 3, 4, 5, 42) are pairwise different |
| Networks.EtherscanPrefix | src/contracts/networks/index.ts:25-34 | a chain's explorer prefix is its table entry, and the mainnet one ("") for a chain without an entry |
| Networks.PrefixTable | src/contracts/networks/index.ts:25-31 | the prefix of each known chain ("", "ropsten.", "rinkeby.", "goerli.", "kovan."), and the mainnet prefix for every other chain id |
| Networks.PathSegment | src/contracts/networks/index.ts:36-47 | "transaction" gives /tx/, "token" gives /token/, and every other type, "address" included, gives /address/; the three segments differ, and each starts and ends with '/' |
| Networks.GetEtherscanLink | src/contracts/networks/index.ts:33-48 | every link starts with "https://" and ends with the data it links to |
| Networks.LinkShapes | src/contracts/networks/index.ts:33-48 | "transaction" links to /tx/, "token" to /token/ and "address" to /address/, all on the chain's etherscan host |
| Networks.UnknownChainLink | src/contracts/networks/index.ts:34 | a chain without a prefix entry gets the same link as mainnet: https://etherscan.io/… |
| Networks.LinkInjective | src/contracts/networks/index.ts:33-48 | for a fixed chain and link type, different data give different links |
| Networks.GetConfigByNetwork | src/contracts/networks/index.ts:83-97 | a table is returned exactly for chain id 42, and it is the Kovan table |
| Networks.OnlyKovanRegistered | src/contracts/networks/index.ts:83-88 | mainnet, Ropsten, Rinkeby and Goerli have no table, and the Binance test network table is never returned |
| Networks.RegisteredConfigsComplete | src/contracts/networks/index.ts:95-97 | every table handed out has five non-empty, distinct, well-formed mandatory addresses |
| Networks.Shorter | src/contracts/networks/index.ts:100-101 | a string of at most 8 characters is unchanged; a longer one becomes 13 characters: its first 6, "..." and its last 4 |
| Networks.ShorterIdempotent | src/contracts/networks/index.ts:100-101 | shortening twice is the same as shortening once |
| Kovan.KovanMandatory | src/contracts/networks/kovan.ts:6-51 | the five mandatory Kovan addresses are non-empty and pairwise distinct |
| Kovan.KovanOptionalPresent | src/contracts/networks/kovan.ts:11-34 | all six optional Kovan entries are present with non-empty addresses |
| Kovan.KovanAddressesWellFormed | src/contracts/networks/kovan.ts:6-51 | every Kovan address, the five mandatory and the six optional ones, is "0x" followed by 40 hexadecimal digits |
| Kovan.KovanControllerEntries | src/contracts/networks/kovan.ts:7-22 | the unitroller differs from the comptroller entry; governorAlpha and maximillion share one address |
| BinanceTestnet.BinanceTestnetMandatory | src/contracts/networks/binancetestnet.ts:6-51 | the five mandatory addresses are non-empty and pairwise distinct |
| BinanceTestnet.BinanceTestnetOptionalEmpty | src/contracts/networks/binancetestnet.ts:11-34 | all six optional entries are present, each with the empty address |
| BinanceTestnet.BinanceTestnetAddressesWellFormed | src/contracts/networks/binancetestnet.ts:6-51 | each non-empty address of the table is "0x" followed by 40 hexadecimal digits |
| EnvConfig.GetConfig | src/createLoan.ts:32-68 | the error list is one "X env var not set" message per missing or empty variable, in check order; a configuration is returned exactly when that list is empty |
| EnvConfig.Check | src/scripts/createLoan.ts:65-76 | one variable check: its value is the variable or "", and the error list grows by its message exactly when the value is empty |
| EnvConfig.MissingEmptyIff | src/createLoan.ts:42-55 | no message is collected exactly when every variable is non-empty; at most one message per variable |
| EnvConfig.ConfigSpec | src/createLoan.ts:55-67 | the configuration fails exactly when some message was collected; otherwise each field is exactly its environment variable, and it is non-empty |
| EnvConfig.ConfigRejectedIffSomeEmpty | src/scripts/createLoan.ts:63-81 | getConfig throws exactly when some one of the six variables is missing or empty |
| Units.ParseUnits | src/scripts/createLoan.ts:50 | a value is accepted only when it is non-empty and made of digits and points |
| Units.ParseWhole | src/scripts/createLoan.ts:165 | a whole number of tokens parses to that number times 10^decimals |
| Units.ParseFormatRoundTrip | src/scripts/createLoan.ts:49-50 | parsing the formatted form of an amount, with the same decimals, gives the amount back |
| Units.FormatUnits | src/scripts/createLoan.ts:49 | the text is non-empty and made of digits and points; it has a point exactly when decimals > 0; its whole part is the whole-token quotient in decimal |
| Units.DivMod | src/scripts/createLoan.ts:341 | quotient and remainder: value = q·scale + r with r < scale |
| Decimal.NatToString | src/scripts/createLoan.ts:280 | the rendering `${n}` of a non-negative amount is a non-empty digit string with no leading zero |
| Decimal.IntToString | src/scripts/createLoan.ts:113 | `${chainId}` of an integer chain id is non-empty and starts with '-' exactly when the id is negative; the digits after the sign read back as the id's magnitude |
| Decimal.NatToStringRoundTrip | src/scripts/createLoan.ts:280 | the decimal rendering `${n}` of an amount reads back as that amount |
| Decimal.NatToStringInjective | src/scripts/createLoan.ts:288 | different amounts render differently |
| LoanMessages.AmountText | src/scripts/createLoan.ts:239 | `${sukuBalance}` renders as digits exactly when the balance is set, and as "undefined" when it never was |
| LoanMessages.AmountTextInjective | src/scripts/createLoan.ts:258 | the rendered amount determines the amount, and an unset one is told apart from every number |
| LoanMessages.SuccessTextDeterminesBalance | src/scripts/createLoan.ts:348 | `Message.Text` renders the success template; two success messages with the same text report the same balance |
| LoanMessages.LiquidityFailureTextDeterminesWallet | src/scripts/createLoan.ts:300 | `Message.Text` renders the liquidity-failure template; the text determines the wallet it names |
| CreateLoan.FromCode | src/scripts/createLoan.ts:18-25 | a number names a member of `Errors` exactly when it is below 6 |
| CreateLoan.CodesRoundTrip | src/scripts/createLoan.ts:18-25 | the members are numbered 0 to 5 in declaration order, and number and member convert into each other |
| CreateLoan.CodesDistinct | src/scripts/createLoan.ts:18-25 | different members have different codes |
| CreateLoan.Error | src/scripts/createLoan.ts:36-45 | error() returns the record of its code and message and logs exactly that record, after the earlier ones |
| CreateLoan.WholeUnits | src/scripts/createLoan.ts:341 | the balance in whole tokens q satisfies q·10^d ≤ balance < (q+1)·10^d |
| CreateLoan.ReadSukuBalance | src/scripts/createLoan.ts:158-194 | the SUKU balance step, by method, agrees with its specification `SukuStage` |
| CreateLoan.SubmitTransaction | src/scripts/createLoan.ts:199-261 | one transaction step: the call is issued, and when it fails, its TRANSACTION_ERROR is logged and nothing else is |
| CreateLoan.ReadLiquidity | src/scripts/createLoan.ts:267-303 | the liquidity step, by method, agrees with its specification `LiquidityStage` |
| CreateLoan.ReadUsdcBalance | src/scripts/createLoan.ts:338-356 | the final USDC step, by method, agrees with its specification `FinalStage` |
| CreateLoan.RunCollateral | src/scripts/createLoan.ts:199-261 | enterMarkets, approve and mint, by method, agree with `Collateral` |
| CreateLoan.RunLoan | src/scripts/createLoan.ts:267-329 | the liquidity read, its checks and borrow, by method, agree with `Loan` |
| CreateLoan.RunSteps | src/scripts/createLoan.ts:117-356 | the whole run after the wallet, by method, agrees with `Steps` |
| CreateLoan.CreateLoan | src/scripts/createLoan.ts:103-357 | the whole workflow, by method, agrees with its specification `Run`, in trace, logged records and outcome |
| CreateLoanProperties.Reads | src/scripts/createLoan.ts:162-163 | a token read issues only balanceOf and decimals calls |
| CreateLoanProperties.SukuStageSpec | src/scripts/createLoan.ts:158-194 | decimals is read only after a successful balanceOf; the step returns early exactly on a requested amount above the balance, with INSUFFICIENT_BALANCE; otherwise sukuBalance is the requested amount, the full balance or unset, and a failure is logged as TRANSACTION_ERROR |
| CreateLoanProperties.CollateralSpec | src/scripts/createLoan.ts:199-261 | enterMarkets on the unitroller with [cSUKU, cUSDC], then approve and mint of `sukuBalance \|\| 0`; each failure is logged with its own message |
| CreateLoanProperties.LoanSpec | src/scripts/createLoan.ts:267-329 | the liquidity read, then borrow of the full liquidity; a thrown read logs TRANSACTION_ERROR and ACCOUNT_LIQUIDITY, a nonzero code logs CONTRACT_RETURN_ERROR, zero liquidity logs ACCOUNT_LIQUIDITY, a failed borrow logs TRANSACTION_ERROR |
| CreateLoanProperties.FinalSpec | src/scripts/createLoan.ts:338-356 | NO_ERROR with the whole-token balance exactly when both USDC reads succeed, otherwise TRANSACTION_ERROR, which is also logged |
| CreateLoanProperties.StepsShape | src/scripts/createLoan.ts:155-356 | past the balance check, the run is the SUKU reads, collateral, loan and USDC reads in that order, and resolves with the final record |
| CreateLoanProperties.StepsCalls | src/scripts/createLoan.ts:162-340 | the exact call sequence over any table once past the balance check |
| CreateLoanProperties.StepsController | src/scripts/createLoan.ts:149-153 | over any table, every controller call goes to that table's unitroller |
| CreateLoanProperties.UnsupportedChainAnswered | src/scripts/createLoan.ts:109-115 | an unregistered chain id resolves with UNSUPPORTED_CHAIN_ID and "Chain id … is not currently supported.", logged once, with no call made |
| CreateLoanProperties.UnsupportedIff | src/scripts/createLoan.ts:109-115 | UNSUPPORTED_CHAIN_ID is returned exactly for the chain ids without a table |
| CreateLoanProperties.RejectedIff | src/scripts/createLoan.ts:124-126 | the promise rejects exactly when the chain is supported and the wallet cannot be built, and then no call was made |
| CreateLoanProperties.RunOnKovan | src/scripts/createLoan.ts:109-126 | on chain 42 with a wallet, the run is the steps over the Kovan table |
| CreateLoanProperties.InsufficientBalance | src/scripts/createLoan.ts:164-178 | a requested amount above the balance resolves with INSUFFICIENT_BALANCE and its message after only the two SUKU reads, with no transaction |
| CreateLoanProperties.InsufficientIff | src/scripts/createLoan.ts:164-178 | INSUFFICIENT_BALANCE is returned exactly in that case |
| CreateLoanProperties.CallOrder | src/scripts/createLoan.ts:155-356 | past the balance check the calls are, in this order: the SUKU reads, enterMarkets, approve and mint of the same deposit, getAccountLiquidity, borrow of the full liquidity, and the USDC reads |
| CreateLoanProperties.DepositRule | src/scripts/createLoan.ts:164-183 | the deposit is the full balance when no amount is given, the parsed amount (never above the balance) when one is, and 0 when a read or the parse threw |
| CreateLoanProperties.TransactionFailuresOnlyLogged | src/scripts/createLoan.ts:214-329 | whether the four transactions succeed changes neither the calls made nor the outcome |
| CreateLoanProperties.TransactionFailuresLogged | src/scripts/createLoan.ts:214-329 | each failed transaction is logged as a TRANSACTION_ERROR with its own message |
| CreateLoanProperties.LiquidityChecksLogged | src/scripts/createLoan.ts:276-340 | each liquidity problem is logged under its own code, and none of them stops the run: the call just before the USDC reads is the borrow of `accountLiquidity \|\| 0`, the trace ends with the USDC reads, and the outcome is the one the USDC reads give |
| CreateLoanProperties.FinalResult | src/scripts/createLoan.ts:338-356 | past the balance check, the run resolves with NO_ERROR exactly when both USDC reads succeed, with the balance in whole tokens; otherwise with TRANSACTION_ERROR |
| CreateLoanProperties.ReturnedCodes | src/scripts/createLoan.ts:103-357 | CONTRACT_RETURN_ERROR and ACCOUNT_LIQUIDITY are never returned, and every returned error is also the last record logged |
| CreateLoanProperties.ControllerIsUnitroller | src/scripts/createLoan.ts:117-153 | every enterMarkets and getAccountLiquidity call goes to the unitroller address, which is not the comptroller entry |
| CreateLoanProperties.WholeUnitsFloor | src/scripts/createLoan.ts:341 | `usdcBalance.div(10^decimals)` rounds down |
| LegacyCreateLoan.RunTransactions | src/createLoan.ts:122-215 | the transaction steps, by method, agree with their specification `Transactions` |
| LegacyCreateLoan.LegacyCreateLoan | src/createLoan.ts:70-216 | the whole legacy workflow, by method, agrees with its specification `Run` |
| LegacyCreateLoanProperties.ConfigFailure | src/createLoan.ts:74-81 | a missing or empty variable rejects with "Error setting up configuration." before any call |
| LegacyCreateLoanProperties.LibraryErrorIff | src/createLoan.ts:84-117 | the run rejects from the library exactly when the wallet cannot be built or the balance read throws |
| LegacyCreateLoanProperties.AbortsAtFirstFailure | src/createLoan.ts:117-215 | the calls are the full sequence cut off just after the first failing step; the run completes exactly when every step succeeds, and otherwise throws |
| LegacyCreateLoanProperties.FailureMessages | src/createLoan.ts:135-214 | each failing step throws its own message, and every liquidity problem throws "Error obtaining account liquidity for: …" |
| LegacyCreateLoanProperties.NoBorrowWithoutLiquidity | src/createLoan.ts:172-200 | a thrown read, a nonzero error code or zero liquidity means borrow is never called |
| LegacyCreateLoanProperties.BorrowIsReportedLiquidity | src/createLoan.ts:194-208 | a borrow happens only after a clean liquidity reply, and for exactly the reported, positive, liquidity |
| LegacyCreateLoanProperties.DepositIsFullBalance | src/createLoan.ts:146-159 | approve and mint carry the same amount, the full SUKU balance, and approve comes first |
| LegacyCreateLoanProperties.IgnoresSukuAmount | src/createLoan.ts:70-73 | the `sukuAmount` argument does not affect the run |

## Left out

- **Remote calls.** The JSON-RPC provider, wallet construction, contract objects, transaction confirmation and block time are not modelled. Each is one reply in the oracle. The provider URL is carried but never used.
- **Async scheduling.** The `await`s run in program order, and nothing runs concurrently.
- **Console output.** The `log` helper, `console.log`, `console.dir` and `console.error` are left out. The records passed to `error()` are kept, as the `reported` sequence.
- **Message rendering.** Messages are kept as `LoanMessages.Message` values. `Text` renders them with the source's templates. The properties are stated over the values, not over the rendered strings.
- LoanMessages.Message.Text: chain ids are modelled as integers (`Request.chainId: int`) and rendered in plain decimal digits. A JavaScript `number` may also be fractional, such as 42.5, or 1e21 and above, which `${chainId}` renders in exponent form, as in "1e+21". Neither case is modelled. Every such id is unsupported, so only the text of the UNSUPPORTED_CHAIN_ID message would differ.
- Networks.Shorter: lengths and slices count characters (Unicode scalar values), not the UTF-16 code units of JavaScript's `length` and `slice`. The two agree on the ASCII addresses and hashes the helper is given. A string with characters outside the Basic Multilingual Plane is cut at different points; for example, five U+1F600 characters are left unchanged here, whereas JavaScript shortens them.
- **`e` at src/createLoan.ts:199.** It is referenced outside any `catch`. The branch cannot be reached, so the reference is not modelled.
- Units.ParseUnits: models only unsigned amounts. A leading '-' is rejected here, whereas ethers accepts it and yields a negative value. For a requested amount such as "-1", the model therefore behaves as for a failed parse: it logs the TRANSACTION_ERROR "Error obtaining SUKU…", leaves `sukuBalance` unset, and issues approve(0) and mint(0). Ethers would instead continue with the negative amount as `sukuBalance`, which ethers refuses to encode as a uint256, so approve and mint each log their TRANSACTION_ERROR.
- Units.ParseUnits: does not model ethers' failure for more than 256 decimals. Here any number of decimals is accepted.
- LegacyCreateLoan.Run: `sukuAmount` (a bignumber.js value) is modelled as a `real`. It is never read.
- **ABIs and generated contract types.** The ABI JSON files and contract type definitions are not part of this model. Only the calls the workflows issue are modelled.
- **The entry points.** src/index.ts and src/example.ts are callers and are left out.
