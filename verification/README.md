# siLNt: a verified model of its transactions and ledgers

This project models four connected parts of siLNt and proves what they promise.

1. **The Taproot refund builder** (`boltz_refund.py`): point arithmetic, key aggregation, Bech32m, the
   control block, the signed digest and the serialised transaction. Files `NumberTheory`, `Bits`, `Bytes`,
   `Curve`, `Bech32`, `Bech32Code` (the checksum as a code over a field of 32 elements), `Regroup`, `Address`,
   `Taproot`, `TaprootRules` (the rules of BIP-327 and BIP-341 in their own terms), `TxFormat`, `RefundTx`.
2. **Silent Payments outputs** derived from public inputs, from private inputs, and for the instance
   (`helpers/_payjoin_sp_check.py`, `helpers/wallet.py`, `helpers/tangochange.py`). Files `SilentPayments`,
   `SharedSecrets`, `Bip352` (the rules of BIP-352 in their own terms).
3. **The Tango round protocol** (`views_api.py`, `crud.py`, `helpers/tango.py`): pricing, the transaction,
   the request handlers, connections, the expiry sweep, wallet removal. Files `Sequences`, `Bip69`,
   `TangoPlan`, `TxSize` (the estimate against the bytes), `TangoRounds` (the rows and the steps), `TangoHandlers`
   (when each request is granted and what it writes), `TangoTransaction` (what a round spends and pays), `TangoSafety` (the invariant of every run),
   `TangoHistory` (what is frozen when), `TangoSweep` (liveness), `TangoConsent` (connections),
   `TangoRuns` (runs that show what can happen), `Accounts` (deleting
   an account), `TangoServer` (the handlers as methods of a class).
4. **The payout ledger and the coin table** (`views_api.py`, `crud.py`, `helpers/tangopayout.py`,
   `helpers/tangopayoutrun.py`, `helpers/dust_check.py`). Files `PayoutPolicy`, `Payouts`, `PayoutRules` (fee, waits
   and steps in figures), `PayoutPass` (a whole pass, and retries under way), `PayoutTotals`, `PayoutQueue`,
   `QueueRules` (what enqueuing records), `PayoutOrigin` (rounds and payouts together), `PayoutServer`, `Coins`,
   `CoinRules` (which entry of a scan each column comes from).

`dafny verify dfyconfig.toml` checks everything.

## What is assumed

- The field constant is some prime equal to 3 modulo 4 and at most 2^256, and the generator is a point of the
  curve. Its concrete primality is not checked. Euclid's lemma and Fermat's little theorem are proved.
- Addition of curve points is associative (`Curve.Associative`). Closure, commutativity, identity and inverses
  are proved. `SharedSecrets.Group` adds that every point is annihilated by the group order and that the
  multiples of the generator below it are not infinity.
- SHA-256, Schnorr signing and verification, the transaction id and the taproot key-path digest of a Tango are
  arbitrary functions. No collision resistance is assumed anywhere.
- Each request handler is one atomic step, except in the lemmas that show what goes wrong otherwise
  (`TangoHistory.SplitSignIsSwept`, `Payouts.SplitRetryUnpays`, `Payouts.TwoLoopsPayTwice`). A database write
  that follows a successful payment or broadcast does not fail, a payment attempt either goes through or does
  not, the clock does not go back, and new row ids are fresh.
- What the network, the explorer, the Lightning side, the configuration and the wallet's own records answer
  comes in as an argument of a step; every theorem holds for every answer.
- Floats (fee rates, percentages) are real numbers. Hexadecimal text is decoded to bytes before the model sees
  it, so case and malformed hexadecimal do not appear.

## What was found

- `_lift_x` accepts coordinates that are not reduced; its result is a curve point exactly when they are
  (`Curve.LiftXSound`). The one-byte script length of `_leaf_hash` agrees with BIP-341 exactly below 253 bytes
  (`Taproot.LeafPreimage`), the code's control block is valid exactly when the tweak needs no reduction
  (`Taproot.ControlBlockValid`), `_spk_from_address` never looks at the checksum
  (`Address.DecoderIgnoresChecksum`), and the bytes of a refund parse back exactly when the lockup id had 32
  bytes (`RefundTx.RefundParses`).
- "Two passes settle it" in `plan` is not so: some inputs alternate for ever between two shapes
  (`TangoPlan.NeverSettles`), rounds that runs reach among them (`TangoRuns.RecordedTooBig`). The fee is never too
  low for that (`TangoPlan.NeverUnderpays`), and the coins and the rate tell exactly when the recorded size is
  right (`TangoPlan.SizeExact`).
- The size estimate counts one byte for the number of inputs and one for the number of outputs. It is the virtual
  size of the transaction exactly below 253 of each, and too small from there on (`TxSize.VsizeIsVirtualSize`);
  nothing limits the coins a side brings. A round of at least one satoshi a byte that gives both sides change pays
  its rate exactly below 253 inputs and outputs (`TxSize.PaysExactly`).
- The turn table gives A_SIGNED to B, and `/accept` asks for nothing but B's turn: B may accept an already
  signed round once more with fresh coins, which sends it back to ACCEPTED. What A signed is frozen against
  every other step and against nothing else (`TangoHistory.FrozenOnceSigned`); `TangoRuns.ReacceptPasses` is a run.
  Nothing unsound follows, because A has to sign again (`TangoSafety.OneTransactionTwoSignatures`).
- Deleting a user's last wallet on a network, or an account, while an invitation stands leaves an unfinished
  round between people who are not connected; no other step can (`TangoConsent.StepConsent`).
  `TangoRuns.InvitationOutlives` is a run.
- Deleting an account finds its Tango rounds by wallet. The account's id stays on exactly those broadcast rounds
  whose wallet had been removed before (`Accounts.AccountRemembered`, and in a run
  `Accounts.RemovedFirstIsRemembered`).
- A retry of a payout starts its attempts over for good exactly if the running pass does not try the row any more
  (`PayoutPass.RetryLasts`); `PayoutPass.ListedRetryIsLost` is a run in which the row is stopped at once.

## Model

| member | source | states |
|---|---|---|
| NumberTheory.Euclid | boltz_refund.py:45-63 | A prime that divides a product divides a factor: why no division in the point formulas is by zero. |
| NumberTheory.FermatUnit | boltz_refund.py:45-46 | `a^(p-1)` is 1 modulo p for every a that p does not divide: what makes `pow(a, m - 2, m)` an inverse. |
| Curve.InvInverts | boltz_refund.py:45-46 | `_inv(a)` times a is 1 modulo P unless P divides a. |
| Curve.SameX | boltz_refund.py:56-61 | Two curve points with equal x are equal or opposite, so the chord branch is only reached with different x. |
| Curve.NeverInvertsZero | boltz_refund.py:56-61 | Whenever `_padd` divides, the divisor is not a multiple of P. |
| Curve.AddClosed | boltz_refund.py:49-63 | The sum of two curve points is again a canonical curve point. |
| Curve.AddCommutes | boltz_refund.py:49-63 | `_padd` is commutative on curve points. |
| Curve.NegInverse | boltz_refund.py:66-70 | `_pneg` gives a curve point, the inverse, and undoes itself. |
| Curve.SumInfinity | boltz_refund.py:56-57 | The sum is None only for a point and its `_pneg`. |
| Curve.ChordRule | boltz_refund.py:49-63 | `_padd` is the chord and tangent rule: infinity is neutral, opposite points add up to it, and the sum of any other two is opposite to the third point of their line, or of the tangent. |
| Curve.PMul | boltz_refund.py:73-80 | The shift-and-add loop ends and returns the k-fold sum, for every k >= 0, given associativity. |
| Curve.SquareRoot | boltz_refund.py:85-87 | Raising a square to (P+1)/4 gives one of its roots, because P is 3 modulo 4. |
| Curve.LiftXSound | boltz_refund.py:83-88 | What `_lift_x` returns has an even y and satisfies the curve equation; it is canonical if and only if x < P. |
| Curve.LiftXComplete | boltz_refund.py:83-88 | Every curve point with an even y is what its x lifts to. |
| Bytes.LexIsDictionary | helpers/_payjoin_sp_check.py:160-161 | Python's order on bytes is the dictionary order: a prefix first, else the smaller byte at the first difference. |
| Bytes.TaggedIsTagged | boltz_refund.py:99-101 | A tagged hash is the hash of the tag's hash twice and the messages in order. |
| Bytes.VarIntForm | boltz_refund.py:227-234 | The first byte of a compact size tells its form, and the rest is the number in little-endian order; the shortest form is taken. |
| Bech32.PolyMod | boltz_refund.py:127-135 | The checksum loop computes the polynomial fold, one generator bit at a time. |
| Bech32.ExpandsUnique | boltz_refund.py:138-139 | The expansion of a prefix is the one list of 2n+1 symbols with 0 in the middle in which symbol i times 32 plus symbol n+1+i is the code of letter i; the check is stated over such a list. |
| Bech32Code.StepIsRemainder | boltz_refund.py:127-135 | One round multiplies by x and takes the remainder modulo the generator polynomial of BIP-173 over the field of 32 elements, symbol by symbol. |
| Bech32Code.PolyByStep | boltz_refund.py:127-135 | The loop is these rounds, from 1 on, one symbol after the other. |
| Bech32.ChecksumVerifies | boltz_refund.py:158-162 | For every prefix and every data, running the loop over expanded prefix, data and the six symbols gives 0x2BC830A3. |
| Bech32.StepInjective | boltz_refund.py:130-134 | One round of the loop is injective on 30-bit states. |
| Bech32.BurstDetected | boltz_refund.py:127-135 | Replacing up to six consecutive symbols by others always changes the checksum, anywhere and at any length. |
| Regroup.ConvertBits | boltz_refund.py:142-155 | The never-masked accumulator yields the bit string of the input cut into groups, padded or not. |
| Regroup.RegroupRoundTrip | boltz_refund.py:142-155 | Regrouping w to v bits with padding and back without is the identity for every list that fits. |
| Address.AddressSpells | boltz_refund.py:158-162 | An address is the prefix, a 1 and the letters of the version, of the program as one number in base 32, and of six symbols with which the check holds. |
| Address.DecodesExactly | boltz_refund.py:237-252 | Of any string whatever: it is refused exactly for a letter outside the alphabet or nothing after its last 1, and otherwise the version, and the number in base 32 with its last bits cut off, make the script, or an error if that takes more than 255 bytes. |
| Address.EncodedVerifies | boltz_refund.py:158-162 | Every encoded address passes BIP-350's check. |
| Address.TypoFailsVerification | boltz_refund.py:158-162 | An address with up to six consecutive letters replaced fails it. |
| Address.AddressRoundTrip | boltz_refund.py:158-252 | Decoding an encoded program gives its script if the program has at most 255 bytes, and an error otherwise. |
| Address.DecoderIgnoresChecksum | boltz_refund.py:237-252 | Whatever six checksum letters an address ends with, the decoder returns the same script. |
| Address.AddressInjective | boltz_refund.py:158-162 | Two taproot programs with one address are one program. |
| Taproot.ParsePubCanonical | boltz_refund.py:104-109 | `_parse_pub` gives a curve point if and only if the coordinate is below P and a key marked odd does not have y = 0. |
| Taproot.KeyAgg | boltz_refund.py:112-120 | The loop sums every key times its BIP-327 coefficient, and fails exactly if some key does not parse. |
| TaprootRules.AggregatesByRule | boltz_refund.py:112-120 | A list of keys that parse sums to each key times its factor: 1 for every key equal to the first that differs from the first one, and for every other the hash of the list and the key. |
| TaprootRules.TwoKeys | boltz_refund.py:112-120 | Of two different keys, the first enters with its hash and the second with 1. |
| TaprootRules.ParsedKey | boltz_refund.py:104-109 | A compressed key is the point at its coordinate whose other coordinate is odd exactly if the first byte is 3. |
| TaprootRules.OrdersTried | boltz_refund.py:188-197 | The sorted order is one of the two fixed ones, with the smaller key first. |
| TaprootRules.BranchTagged | boltz_refund.py:208-210 | The branch is the tagged hash of both leaf hashes, the one that comes first in the dictionary in front. |
| TaprootRules.TweakTagged | boltz_refund.py:211-214 | The tweak is the tagged hash of the internal key and the root, reduced by the group order. |
| TaprootRules.InternalIsEven | boltz_refund.py:199-206 | The internal key is the x coordinate of the sum of the keys and stands for the point there with an even y; there is none exactly if the sum is infinity. |
| TaprootRules.ReconstructExactly | boltz_refund.py:173-219 | A reconstruction is made exactly if the keys have a finite sum, both scripts' lengths fit one byte and the tweaked key is finite. |
| Taproot.LeafPreimage | boltz_refund.py:169-170 | The code's leaf preimage is the BIP-341 one if and only if the script is shorter than 253 bytes. |
| Taproot.BranchSymmetric | boltz_refund.py:208-210 | The branch hash is the same from either leaf. |
| Taproot.ControlBlockValid | boltz_refund.py:173-219 | The control block passes the script validation rules of BIP-341 against the returned output key if and only if the tweak is below the group order; likewise the claim leaf's. |
| TxFormat.ParsePut | boltz_refund.py:370-380 | A parser of the BIP-144 format recovers every well-formed transaction from its bytes. |
| Taproot.ReconstructTaproot | boltz_refund.py:173-219 | With the loops of `_key_agg` and `_pmul`, the code reconstructs what is specified, for keys that are points of the curve. |
| RefundTx.BuildRefundTx | boltz_refund.py:289-381 | The search over key orders and the guards, loops included, return the specified bytes or the specified refusal, for keys that are points of the curve. |
| RefundTx.SearchFinds | boltz_refund.py:318-345 | What is signed for is the first of the three orders whose address is the funded one; a mismatch is reported exactly if all three can be reconstructed and none has it. |
| RefundTx.RefundExactly | boltz_refund.py:318-381 | There is a refund exactly if the address was found, the destination can be read, something is left after the fee and every number fits its field. |
| RefundTx.BytesAreTx | boltz_refund.py:362-380 | The concatenated bytes are the standard serialisation of the refund transaction. |
| RefundTx.DigestAgrees | boltz_refund.py:256-285 | The signed digest is the BIP-341 message with the BIP-342 extension for that transaction, that prevout and that leaf. |
| RefundTx.RefundParses | boltz_refund.py:370-381 | The returned bytes parse to the intended transaction if and only if the lockup id had 32 bytes. |
| RefundTx.RefundAgrees | boltz_refund.py:340-381 | The parsed transaction spends the named outpoint, whose script is the one the funded address decodes to, pays value less fee to the destination, and carries a signature of its own digest. |
| RefundTx.RefundSpendsLockup | boltz_refund.py:318-368 | The witness's control block commits to the refund script under the funded output, if and only if the tweak needs no reduction. |
| SilentPayments.SpOutputPoint | helpers/_payjoin_sp_check.py:117-175 | The loops over the public inputs return the specified point, or fail where it says. |
| SilentPayments.PublishTweak | helpers/_payjoin_sp_check.py:187-208 | The oracle's loops return the specified tweak. |
| SilentPayments.SpScriptFromInputs | helpers/wallet.py:401-464 | The sender's loops over private keys return the specified script. |
| Bip352.SenderFollows | helpers/wallet.py:401-464 | The sender's script is BIP-352's: with a the sum of the keys, those of taproot inputs negated where y is odd, and the hash of the outpoint that comes first in the dictionary and of a*G, the output is B_spend + t_0*G; and exactly when there is none. |
| Bip352.ReceiverFollows | helpers/_payjoin_sp_check.py:117-184 | The point derived from the public inputs is BIP-352's too, for every k, and exactly when there is none. |
| Bip352.OracleFollows | helpers/_payjoin_sp_check.py:187-208 | What the index publishes is input_hash times the sum of the inputs' points, serialised. |
| Bip352.InputCounts | helpers/_payjoin_sp_check.py:146-152 | A taproot input counts as the point at its x coordinate with an even y, any other as its whole key. |
| SharedSecrets.ContributionIsKey | helpers/_payjoin_sp_check.py:146-152 | What a public input adds to the sum is the point of the normalised private key, for taproot and other inputs. |
| SharedSecrets.PublicEqualsPrivate | helpers/_payjoin_sp_check.py:117-184 | For every list of keys and every mixture of inputs, the script from public inputs and b_scan is the sender's script from private keys and B_scan, failures included. |
| SharedSecrets.SharedEqualsPrivate | helpers/wallet.py:447-450 | input_hash * A_sum * b_scan is input_hash * a_sum * B_scan. |
| SharedSecrets.OracleSuffices | helpers/_payjoin_sp_check.py:187-208 | The receiver's shared point is b_scan times the published tweak; where nothing is published, nothing can be derived. |
| SharedSecrets.OrderIrrelevant | helpers/_payjoin_sp_check.py:154-163 | Permuting the inputs changes neither the derived output nor the published tweak. |
| SharedSecrets.OutputKey | helpers/_payjoin_sp_check.py:165-175 | b_spend + t_k is the discrete logarithm of the derived point. |
| SharedSecrets.LabelledKey | helpers/_payjoin_sp_check.py:326-340 | Adding the label's point adds the label's key. |
| Bip352.SpendableExactly | helpers/_payjoin_sp_check.py:264-267 | A record passes exactly if b_spend plus its tweak is a key and the record is that key's x coordinate in 32 bytes. |
| SharedSecrets.DerivedIsSpendable | helpers/_payjoin_sp_check.py:264-267 | The key recorded for a derived output is reproduced by b_spend plus its tweak. |
| SharedSecrets.LabelledIsSpendable | helpers/_payjoin_sp_check.py:264-267 | So is a labelled output's, with the label added to the tweak. |
| SharedSecrets.PartyKey | helpers/_payjoin_sp_check.py:233-245 | The x-only key on chain, the signing key and the key BIP-352 sums are one even-y key. |
| SharedSecrets.SigningKeyExists | helpers/payjoin_sp.py:282-307 | The signing key exists exactly for the key b_spend + tweak makes, and its point has an even y. |
| SharedSecrets.DerivedVerifies | helpers/tangochange.py:98-167 | Whatever routed change the instance derives, the clients' check accepts. |
| SharedSecrets.VerifiedPaysInstance | helpers/tangochange.py:139-167 | The clients' check accepts exactly the script of the key b_spend + t_k. |
| Bip69.SortPermuted | helpers/payjoin_sp.py:97-105 | A sorted list does not depend on the order it was built in. |
| Bip69.CanonicalPermuted | helpers/payjoin_sp.py:97-105 | Whichever side lists its coins first, the inputs come in one order. |
| TangoPlan.Plan | helpers/tango.py:342-478 | The two repricing passes compute the specified amounts or refusal, and the complaint that the fee moved is never made. |
| TangoPlan.PlanAccepts | helpers/tango.py:388-451 | A plan is refused exactly for indivisible, dusty or missing coins or a side that does not cover the dearest price. |
| TangoPlan.PlanConserves | helpers/tango.py:453-478 | Each side's coins are the denomination, its change and its part of the fee; no change and no piece is dust. |
| TangoPlan.NeverUnderpays | helpers/tango.py:434-451 | The fee covers the rate for the outputs that are made. |
| TxSize.VsizeIsVirtualSize | helpers/txsize.py:64-79 | The estimate is the virtual size of the bytes of the transaction, a quarter of its weight rounded up, if and only if there are fewer than 253 inputs and 253 outputs; it is never above it. |
| TxSize.FeePaysWeight | helpers/tango.py:434-451 | Below those counts the fee pays the rate for every quarter of the weight of the transaction's bytes. |
| TxSize.PaysExactly | helpers/tango.py:434-451 | With change on both sides and at least one satoshi a byte, it does so if and only if the counts are below them. |
| TangoPlan.SizeExact | helpers/tango.py:434-451 | The recorded size is that of the transaction if and only if the prices of the three possible shapes settle, which is told from the coins and the rate without running a pass. |
| TangoPlan.NeverSettles | helpers/tango.py:434-451 | For one concrete input every further pass prices another shape than the one before. |
| TangoPlan.Oscillates | helpers/tango.py:434-451 | Any two coins of 10,680 at one satoshi a byte do not settle: the recorded size is that of two outputs too many. |
| TangoRuns.RecordedTooBig | views_api.py:6735-6881 | A run from the empty tables in which `/accept` records that size. |
| TangoPlan.DustRecovered | helpers/tango.py:264-297 | `dust_to_fee` recomputes exactly what each side's change lost to the fee, and it is below the dust limit. |
| TangoPlan.SidesIndistinguishable | helpers/tango.py:496-534 | Exchanging the two sides gives the same outputs in the same order. |
| TangoPlan.PiecesIndistinguishable | helpers/tango.py:496-534 | So does dealing the mixed scripts to the sides in any other way. |
| TangoPlan.OutputsConserve | helpers/tango.py:496-534 | The outputs pay what comes in less the fee, in the planned number, all above the dust limit. |
| TangoTransaction.TransactionExactly | views_api.py:6158-6175 | A row can be built exactly if the scripts are as many as the pieces and every change has one; and then the transaction spends every coin of both sides once, by transaction id and index, and pays each side its equal pieces and its own change, by value and script, and nothing else. |
| TangoTransaction.ASignWrites | views_api.py:6921-6994 | A's signature leaves scripts, witnesses and the transaction on the row; bad signatures leave the scripts behind, bad scripts nothing. |
| TangoTransaction.BSignWrites | views_api.py:6996-7009 | B's signature sends out the transaction of the row with a signature of B's, or else of A's, for every input, and ends the round; any refusal leaves no trace. |
| TangoHandlers.RequestExactly | views_api.py:3892-4014 | A connection is requested exactly between two people with wallets there who have no row or one the asker had declined, and it is written into that row or a new one. |
| TangoHandlers.AnswerExactly | views_api.py:4077-4112 | Only the person asked answers, and only once. |
| TangoHandlers.RemoveExactly | views_api.py:4116-4158 | Either of the two removes a connection, and what becomes of every round. |
| TangoHandlers.ProposeExactly | views_api.py:6483-6557 | An offer is taken exactly from one's own wallet, to somebody connected there, of coins in order, spendable and in no other round, if a partner with such coins could match it. |
| TangoHandlers.ProposeWrites | views_api.py:6483-6557 | The new row, column by column; a refusal changes nothing. |
| TangoHandlers.AcceptExactly | views_api.py:6735-6881 | A match is taken exactly on B's turn and in time, with a wallet there, coins and scripts in order and free, a plan that works out and a script for every change it leaves. |
| TangoHandlers.AcceptWrites | views_api.py:6735-6881 | The matched row, column by column; of a refusal nothing but perhaps the instance's address. |
| TangoHandlers.SignExactly | views_api.py:6885-7028 | A signature is taken exactly on one's turn, in time and with every coin of the round unspent, if the scripts are in order and there is a signature that passes for each of one's own inputs and no other; for B, if the network takes the transaction too. Out of turn, late or with a spent coin nothing changes. |
| TangoHandlers.SignRefusals | views_api.py:6885-7028 | Which refusal `/sign` gives when. |
| TangoHandlers.CancelExactly | views_api.py:7032-7064 | Either side cancels exactly an unfinished round, and the row says who. |
| TangoHandlers.CloseExactly | views_api.py:7127-7131 | The sweep closes the next listed row, whatever has become of it. |
| TangoHandlers.ListingExactly | crud.py:3841-3865 | A listing of the sweep holds at most two hundred unfinished rounds whose time is up and leaves out none that is older. |
| TangoHandlers.RemoveWalletExactly | crud.py:105-162 | What removing a wallet leaves of every round and every connection, forgetting the user or not. |
| TangoSafety.AmountsSurvive | views_api.py:6130-6155 | The amounts read back from the row are the plan's, for every number of pieces. |
| TangoSafety.PositionsPartition | helpers/payjoin_sp.py:361-369 | The two sides' signing positions cover every input and overlap nowhere. |
| TangoSafety.BothSigned | views_api.py:6997-7004 | When B's witnesses pass, `finalize` cannot refuse, and every input is validly signed over one transaction. |
| TangoSafety.TooEarlyForB | views_api.py:6900-6958 | B's turn at PROPOSED lets `/sign` through the turn check, and it is always refused later. |
| TangoSafety.ProposeKeeps | views_api.py:6483-6557 | `/rounds` keeps the invariant. |
| TangoSafety.AcceptKeeps | views_api.py:6735-6881 | `/accept` keeps the invariant, at PROPOSED and at A_SIGNED. |
| TangoSafety.SignKeeps | views_api.py:6885-7028 | `/sign` keeps the invariant for both sides, also when it writes A's scripts and then refuses. |
| TangoSafety.CancelKeeps | views_api.py:7032-7087 | `/cancel` keeps the invariant. |
| TangoSafety.CloseNextKeeps | views_api.py:7127-7131 | The sweep's second phase keeps the invariant and never finds a broadcast round, whatever came in between. |
| TangoSafety.RemoveContactKeeps | views_api.py:4116-4158 | Removing a connection keeps the invariant. |
| TangoSafety.RemoveWalletKeeps | crud.py:120-162 | Taking a wallet off its rounds, with or without the identity, keeps the invariant. |
| TangoSafety.StepKeeps | views_api.py:6483-7147 | Every step keeps the invariant. |
| TangoSafety.Reachable | views_api.py:6483-7147 | Every state a run can reach satisfies it. |
| TangoSafety.CoinsReservedOnce | crud.py:3804-3838 | In every reachable state a user's coins in live rounds are pairwise disjoint across rounds, and the two sides of a round are disjoint. |
| TangoSafety.OneTransactionTwoSignatures | views_api.py:6158-6175 | What B's step rebuilds is the stored transaction A signed, and what is broadcast is it, with a valid signature for every input. |
| TangoHistory.StepMoves | views_api.py:6735-7147 | How every step may change a row, state by state; a routed change fixed at accept stays. |
| TangoHistory.FrozenOnceSigned | views_api.py:6735-6881 | Once A has signed, what the transaction is rebuilt from changes if and only if B accepts again: if no check of `/accept` refuses and the routed changes can be derived. |
| TangoHistory.RebuildsTheSame | views_api.py:6158-6175 | Unless B accepts again, what any step leaves of a signed round is rebuilt into exactly the transaction A signed. |
| TangoHistory.ReacceptUnfreezes | views_api.py:6753-6760 | Accepting again sends the row back to ACCEPTED with other coins. |
| TangoRuns.ReacceptPasses | helpers/tango.py:99-122 | A run from the empty tables in which A signs, with any witnesses that pass, and B then accepts again. |
| TangoHistory.ChainOnlyGrows | views_api.py:7005-7009 | What was broadcast never changes, and a round adds at most one transaction, the one A signed. |
| TangoHistory.BroadcastIsFinal | views_api.py:7114-7147 | Over every run, a broadcast round is never cancelled and keeps its transaction. |
| TangoHistory.CancelReleases | views_api.py:7062-7064 | Cancelling gives back exactly the round's coins. |
| TangoHistory.RemovalReleases | views_api.py:4143-4147 | Removing a connection gives back exactly the coins of the unfinished rounds between the two. |
| TangoHistory.CloseReleases | views_api.py:7127-7131 | The sweep gives back exactly the coins of the round it closes. |
| TangoHistory.SplitSignIsSwept | views_api.py:6909-7009 | If the checks and the writes of `/sign` are separate steps, the sweep can cancel a broadcast round. |
| TangoSweep.OverdueShrinks | crud.py:3841-3865 | No step makes a round overdue at a time that has passed. |
| TangoSweep.ListTakes | crud.py:3841-3865 | A listing takes two hundred of the overdue rounds, or all of them. |
| TangoSweep.SweepsClose | views_api.py:7114-7147 | n overdue rounds are all closed after k listings worked off, once 200k >= n, whatever comes in between. |
| TangoConsent.RequestKeepsConsent | views_api.py:3982-4014 | Requesting and reopening keep consent. |
| TangoConsent.AnswerKeepsConsent | views_api.py:4077-4112 | So do approving and declining. |
| TangoConsent.RemoveKeepsConsent | views_api.py:4143-4157 | Removing a connection cancels every unfinished round it carried. |
| TangoConsent.ProposeKeepsConsent | views_api.py:6506-6515 | `/rounds` starts rounds between connected people only. |
| TangoConsent.LastWalletConsent | crud.py:3758-3777 | Deleting the last wallet on a network keeps consent if and only if its owner is invited to no round there. |
| TangoConsent.ForgetContactsConsent | crud.py:2038-2041 | Dropping an account's connections keeps consent if and only if it is in no unfinished round. |
| TangoConsent.StepConsent | views_api.py:6483-7147 | Every step keeps consent if and only if nobody who is invited leaves by it. |
| TangoConsent.StepOnePerPair | crud.py:2712-2763 | No step makes a second row for two people on one network. |
| TangoConsent.RunConsent | views_api.py:3982-4157 | Over every run in which nobody abandons an invitation, unfinished rounds are between connected people and rows are unique. |
| TangoConsent.RunHoused | crud.py:105-162 | In every reachable state, the wallets a round names are those of its two people on its network. |
| TangoRuns.InvitationOutlives | crud.py:3758-3777 | A run from the empty tables in which the invited user removes the last wallet, and the invitation stays between people who are not connected. |
| TangoServer.Server.ReservedOutpoints | crud.py:3804-3838 | The loop over rows collects exactly the coins of the user's side of live rounds. |
| TangoServer.Server.FindContact | crud.py:2744-2763 | The row between two users, found in either direction. |
| TangoServer.Server.IsConnected | crud.py:2890-2908 | True exactly if an accepted row joins the two on the network. |
| TangoServer.Server.Remove | views_api.py:4116-4158 | The loop cancels exactly the unfinished rounds between the two, then the row goes. |
| TangoServer.Server.ProposeRound | views_api.py:6483-6557 | The handler does the specified step and keeps the invariant. |
| TangoServer.Server.AcceptRound | views_api.py:6735-6881 | The checks and both writes do the specified step and keep the invariant. |
| TangoServer.Server.SignRound | views_api.py:6885-7028 | Both sides' signing does the specified step and keeps the invariant. |
| TangoServer.Server.ListExpired | crud.py:3841-3865 | The rows returned are due, distinct, the oldest, and as many as the limit allows. |
| TangoServer.Server.RunSweep | views_api.py:7114-7147 | Listing and then closing one by one does the specified steps and keeps the invariant. |
| PayoutPolicy.PayoutSplits | helpers/tangopayout.py:141-201 | A routed change splits exactly into fee and payout above the dust limit; an unrouted one owes nothing. |
| PayoutRules.FeeIsLeastDue | helpers/tangopayout.py:169-176 | The fee is the least that covers the percentage and the floor. |
| PayoutRules.RoutesExactly | helpers/tangopayout.py:159-201 | A change routes if and only if it is no dust and some fee that is enough leaves no dust; and what is planned. |
| PayoutPolicy.NetGrows | helpers/tangopayout.py:226-230 | One satoshi more of change is never less to pay out. |
| PayoutPolicy.MinChangeToRoute | helpers/tangopayout.py:204-254 | Doubling and bisecting return the least change that routes, from which on all do; nothing is returned exactly if nothing up to the last value tried routes. |
| Payouts.AttemptKeeps | views_api.py:4925-5085 | An attempt from a stale listing pays only rows that are unpaid in the table. |
| PayoutRules.HeldExactly | views_api.py:4967-4989 | A payout that a known balance does not cover waits five minutes while it is less than a day old, and nothing else changes. |
| PayoutRules.PaidExactly | views_api.py:5019-5045 | A payment is recorded once, the wallet is down by payout and routing fee, and the figure of the pass by the payout, never below zero. |
| PayoutRules.FailedExactly | views_api.py:5051-5085 | A failure stops the row at once if it never will be paid and at the sixth try otherwise, and waits 5, 15, 30 and then 60 minutes before that. |
| PayoutRules.RetryExactly | views_api.py:5425-5453 | A retry puts back any row but a paid one, as new, to the address saved since if there is one. |
| PayoutRules.RequeueFailedExactly | crud.py:4347-4388 | The batch puts back the failed rows of one network and no others. |
| PayoutRules.RedactExactly | crud.py:4230-4254 | Redacting takes name and address off the user's rows and changes nothing else. |
| PayoutRules.ListingHolds | crud.py:4135-4144 | A listing holds at most twenty-five pending rows whose time has come, and leaves out none that is older. |
| Payouts.AtMostOnce | views_api.py:5088-5143 | Over every run, each output is paid at most once, and the table says paid exactly where a payment went out. |
| Payouts.PaidIsAbsorbing | views_api.py:5438-5453 | No step changes a paid row, except to forget whose it was. |
| Payouts.TwoLoopsPayTwice | views_api.py:5110-5124 | Two loops over one listing pay one output twice. |
| Payouts.SplitRetryUnpays | views_api.py:5438-5453 | A retry whose check and write are separate steps puts a paid row back in the queue. |
| PayoutPass.RetryLasts | views_api.py:5433-5453 | A retry of an unpaid row starts its attempts over, and this outlasts the pass under way if and only if the row is not on the rest of its listing or is held back when its turn comes. |
| PayoutPass.RetryThenAttempt | views_api.py:5433-5453 | The next attempt leaves the fresh start alone if and only if it is on another row or held back. |
| PayoutPass.ListedRetryIsLost | crud.py:4322-4344 | A run from the empty ledger in which a row is listed for its last attempt, put back with no attempts, and stopped by the very next one. |
| PayoutTotals.TotalsCount | crud.py:4183-4227 | Row by row: what every row adds to which total, over all networks or over one. |
| PayoutTotals.Conserved | crud.py:4183-4227 | Collected is paid plus earned plus owed plus the fees of unpaid rows, per network and overall. |
| PayoutTotals.RunConserves | crud.py:4183-4227 | It is so in every reachable state. |
| PayoutTotals.CreateTotals | views_api.py:4900-4920 | A new obligation adds its gross to collected and its net to owed. |
| PayoutTotals.PaymentTotals | views_api.py:5019-5042 | A payment moves exactly the row's net from owed to paid and its fee to earned. |
| PayoutTotals.PaymentIsNeutral | views_api.py:5019-5042 | Wallet minus owed is lowered by the routing fee alone. |
| PayoutTotals.OthersKeepTotals | crud.py:4322-4388 | Failures, deferrals, retries, requeues and redaction leave every total as it was. |
| PayoutTotals.BudgetKept | views_api.py:5102-5135 | Within one pass the payments admitted by the balance test never exceed the balance it started from. |
| QueueRules.OwedExactly | views_api.py:4870-4920 | A side is owed something if and only if its change was routed, is not zero, has an owner and is some output's; and the debt, column by column. |
| QueueRules.EnqueueExactly | views_api.py:4841-4922 | Enqueuing touches no row there is, adds only debts to sides of rounds that are deep enough, and leaves none of these without a row. |
| PayoutQueue.OwedIsFresh | views_api.py:4893-4920 | Every obligation is worth the routed change, less today's fee if that still routes it and no fee otherwise. |
| PayoutOrigin.OwedIsKept | views_api.py:4841-4922 | A routed side of a broadcast round is owed its change exactly while it has a change and a name; the payout names a real output to its script worth at least that, and worth exactly that if and only if no output to the script is worth more. |
| PayoutOrigin.KeysApart | views_api.py:4876-4883 | Two sides with different scripts are owed different outputs. |
| PayoutOrigin.StepBuilt | views_api.py:6158-6175 | Every step keeps the outputs of broadcast rows those of their stored amounts and scripts. |
| PayoutOrigin.EnqueueBooks | views_api.py:4841-4922 | Enqueuing what the table holds keeps the invariants of rounds and ledger together. |
| PayoutOrigin.AlwaysBacked | views_api.py:4841-5143 | Over every run of rounds and payouts together, each payout names an output of a transaction that was broadcast and is for no more than it holds, and is paid at most once. |
| PayoutQueue.EnqueueTwice | views_api.py:4841-4922 | Enqueuing the same rounds again changes nothing. |
| PayoutQueue.RemovalCommutes | crud.py:120-162 | Removing a wallet before or after enqueuing records the same payouts. |
| PayoutQueue.ForgettingDropsOwed | views_api.py:4876-4877 | Forgetting either side before enqueuing comes to the same as after it if and only if the round is not taken yet or that side has nothing left to record. |
| Accounts.GoesOnlyForgotten | crud.py:158-162 | A broadcast row goes only when an account is deleted whose partner is forgotten already. |
| Accounts.RowForgotten | crud.py:128-162 | What deleting any list of wallets with an account leaves of a broadcast row, and exactly when the row goes. |
| Accounts.NameStays | crud.py:128-162 | Of either side, the name stays if and only if its wallet is none of those deleted with the account. |
| Accounts.AccountRemembered | crud.py:1985-2013 | After an account is deleted, its id is still on a broadcast round if and only if the wallet it took part with had been removed before. |
| Accounts.RemovedFirstIsRemembered | crud.py:1985-2013 | A run from the empty tables in which a user mixes, removes that wallet, deletes the account with the other one, and is still named. |
| PayoutServer.PayoutTable.ListDue | crud.py:4135-4144 | The rows returned are due, distinct, the oldest, and as many as the limit allows. |
| PayoutServer.PayoutTable.AttemptNext | views_api.py:4925-5085 | One delivery attempt does the specified step. |
| PayoutServer.PayoutTable.RunPass | views_api.py:5088-5143 | A pass counts every listed row once, and its payments are the ones that went out. |
| PayoutServer.PayoutTable.RequeueFailedPayouts | crud.py:4347-4388 | It moves the failed rows and returns how many there were. |
| PayoutServer.PayoutTable.EnqueuePayouts | views_api.py:4841-4922 | It records what is owed and returns how many rows are new. |
| Coins.CoinTable.InsertUtxos | crud.py:562-617 | The count is the size of the set of new outpoints, which is exact, and the amount is that of their first sightings. |
| CoinRules.ScanExactly | crud.py:562-617 | Which entry of the list each column of a row comes from: amount and keys from the last, title and label from the first that has one and never in place of one, a spend for good, and nothing of what the user set. |
| CoinRules.AmountOfSightings | crud.py:562-617 | The new amount grows by each first sighting of an outpoint and by nothing else. |
| CoinRules.JudgeExactly | helpers/dust_check.py:77-130 | What one evaluation makes of a coin, for every state, freeze and verdict. |
| Coins.RescanKeeps | crud.py:591-606 | Spent states, labels and everything the user or the dust check set survive a rescan. |
| Coins.RescanTwice | crud.py:562-617 | Re-inserting the same list, repeats included, reports nothing new and changes nothing. |
| Coins.ManualFreezeStays | helpers/dust_check.py:109-126 | Over every run of evaluations, rescans and spends, a user's freeze stays until the user lifts it. |
| Coins.UnfreezeSticks | crud.py:1401-1443 | Over every such run after a user's unfreeze, a coin is frozen again if and only if some verdict that reached it has since cleared it and the last one calls it dust. |
| Coins.OnlyVerdictsCount | helpers/dust_check.py:77-130 | However they interleave, only the verdicts given while the coin was unspent decide whether it is frozen. |
| Coins.EvaluateTwice | helpers/dust_check.py:52-130 | An evaluation of the table repeated with the same verdicts changes nothing and flags nothing. |
| Coins.CoinTable.EvaluateDust | helpers/dust_check.py:77-130 | Every unspent coin is reconciled with its verdict, the count is of coins that turned into dust, and every freeze stays somebody's. |
| Coins.NextLabelIndex | crud.py:1073-1090 | The search ends at the least free index from 2 on, at most the number of rows above it. |
| Coins.Pigeonhole | views_api.py:320-337 | With n indices in use the least free one is at most n above the first. |
| Coins.SaveAddress | views_api.py:823-878 | Whatever index is asked for, the saved one is free and always scanned; and exactly when saving is refused. |

## Left out

- HTTP, authentication, push, e-mail, DNS, Electrum and Cloudflare: only their outcomes appear, as arguments.
- The PSBT PayJoin, BitMail, devices, the address book, admin pages and the Boltz swap endpoints: thin checks around storage.
- `_pmul` with a negative k, which would not end; no caller passes one.
- `TxFormat.ParsePut` is about a parser written from BIP-144: the repository has none of its own.
- The checksum of version-0 addresses and Base58 addresses: `boltz_refund.py` computes neither.
- The scanner's matching loop (`helpers/scan.py`): only that the shared point, the tweak and the keys it works with are the right ones.
- The bech32 decoding of a Silent Payments address: its two keys are taken as given.
- `SharedSecrets.OrderIrrelevant`: stated for inputs whose keys are curve points; libsecp256k1 raises on any other, sooner or later depending on the order.
- TangoHandlers.ProposeExactly: is about what reaches the handler; the request's own bounds (a positive denomination and rate, one to four pieces) are checked before and would only leave fewer offers.
- `TangoRounds` takes the derivation of a routed change as an argument: that the derived script pays the instance is proved in `SharedSecrets`.
- `Taproot.ReconstructTaproot` and `RefundTx.BuildRefundTx`: nothing is promised of keys whose coordinate is not reduced, because of those the double-and-add loop does not compute the sums the specification is written with.
- Deleting an account returns early when the user has no wallet, and then cleans nothing, connections included. `Accounts.DeleteAccount` does so too, but as a step of a run the dropping of connections is allowed at any time.
- Tango labels, usernames, cancel notes, notifications and the columns only they read.
- A user on a network through an imported PayJoin descriptor and no wallet, whom a connection request would also find.
- `Coins` models one wallet's table; the freeze updates in `crud.py` match by outpoint in all wallets.
- The labels that `ensure_labeled_address_row` re-creates after a scan, and migrations.
- Attempts of a payout that raise outside the handled exceptions: the loop logs and goes on.
