# Ledger Daemon: a verified model

Ledger Daemon decides which orders are paid, issues a certificate for every decision, lets an independent
verifier re-derive each certificate from the source rows, and gates every action that follows. This project models
the decision core in Dafny and proves what the parts guarantee, alone and together.

| part | modules |
|---|---|
| matching engine | UnionFind, Enumeration, Assignment, ComponentAssignment, Components, Matching, Recon, ReconSafety, PassProofs, Refunds, VerdictTable |
| the gate in front of actions | Policy |
| issuer and verifier | SourceRows, Certificates, CertificateContents, Verifier, ErrorCodes, ProofSoundness, ClaimSoundness, ProofCompleteness, SettlementProofs, NoneGroup, ClaimProofs, ScoredProofs, UnpaidProofs, FrozenProofs, IssueProofs, RefusalProofs |
| accounting identities | Identities, IdentityVerifier, IdentityProofs, IdentitySoundness |
| stateful protocols | Capabilities, CapabilityRuns, Routes, Cases, CaseHistory, Replay, Rules, RuleRuns, RuleProgress, Authority |
| numeric kernels | Money, Parsers, Dates, RiskControl, RiskBounds, Drift, DriftDetection, Conformal, Similarity, SimilarityLaws |
| shared | Prelude, Sorting, Models |

`dafny verify dfyconfig.toml` checks everything. Parts that update state in the source are classes and methods with
loops, each tied by its `ensures` to a function or predicate; what the source promises is proved about those.

Beside each main operation a module says in rows and numbers, without the operation's own functions, which answer it must
give: PassProofs and VerdictTable for a run, CertificateContents, ClaimSoundness and ErrorCodes for a certificate and its
verification, IdentitySoundness, RiskBounds, DriftDetection, CapabilityRuns, CaseHistory, RuleProgress and SimilarityLaws.

How the model reads the source:

- Money is an unbounded `int` of paise, as in the source. Weights, probabilities and error rates are exact reals.
- A date is a year, a month and a day. The engine's day counter and the calendar are two functions of it.
- Narration parsing, the pair score, its probability, the owner heuristic, the confidence allowance and all digests are
  function-valued parameters, so every result holds whatever they compute. Digests are collision-free only where a
  lemma says so.
- A signature check is membership in the set of things that were signed; a random nonce, the clock and an
  authenticated proposal are arguments.
- A database is a value with atomic transactions. A run is any sequence of transactions, so it covers every
  interleaving of clients.

Where the code does other than its documentation says or a reader would expect, the model follows the code:

- `_day_delta` is documented for one year. It leaves the calendar at every year end and around each 29 February, and
  the verifier uses the calendar. `SettlementProofs.YearEndIsRejected` gives a batch whose certificate is therefore
  refused, and `Dates.CountersAgreeExactly` says for any two dates when the two counters agree.
- The authority ladder is documented as a latch that only recalibration opens. A severe window that follows a healthy
  one while authority is revoked writes WARNING, which grants authority. `Authority.LatchExact` says exactly for
  which runs the latch holds.
- The verifier compares settlement ids as text, so a row without that column reads as "None".
  `ProofSoundness.ClaimedGroupIsComplete` says exactly what this admits, and `NoneGroup` gives a family of accepted
  claims over a payment of another order.
- A refunded order may be closed as repaid by a credit that is a TDS-shaped net of the invoice.
  `Refunds.RepaidMayBeShort` gives a batch, `Refunds.RepaidIsInvoiceExactly` the exact condition under which this cannot
  happen, and the verifier refuses every such certificate.
- A refund row without its capture leaves an order unsearched, and an allowed chase may then meet a credit of the whole
  invoice in the feed (`Refunds.ChasedDespitePayment`).
- Two settlements may be confirmed by one credit (`ReconSafety.CreditSharedExactly`).
- The issuer seals every verdict (`IssueProofs.EveryVerdictIsIssued`), but not every certificate is accepted.
  `SettlementProofs`, `ScoredProofs`, `UnpaidProofs` and `FrozenProofs` say exactly which are. One that freezes an order
  over several open disputes is refused (`RefusalProofs.TwoDisputesRejected` gives a batch), and so is every one that
  calls an order unpaid after a match was classified away (`RefusalProofs.ClassifiedAwayRejected` gives a batch). The
  latter takes a probability below one half for a score beyond the tie margin; the logistic in `fs.py` is above one
  half for every positive score, so `RefusalProofs.SureEngineNeverClassifiesAway` excludes it there.

## Model

| member | source | states |
|---|---|---|
| UnionFind.DisjointSets.Find | ledger_daemon/recon.py:121-125 | path halving ends at the root; a known node leaves every root as it was, a new node becomes its own root |
| UnionFind.Halve | ledger_daemon/recon.py:123 | one halving step keeps the root of every node and moves strictly nearer to it |
| UnionFind.DisjointSets.Union | ledger_daemon/recon.py:127-128 | joins exactly one more edge and keeps roots equal exactly for linked nodes |
| UnionFind.JoinTrees | ledger_daemon/recon.py:128 | hanging one root below another merges exactly the two trees and creates no cycle |
| UnionFind.SameRootIffLinked | ledger_daemon/recon.py:118-143 | two nodes have one root exactly when a path of joined edges connects them |
| Components.JoinEdges | ledger_daemon/recon.py:130-132 | after the union loop the joined edges are exactly the order-to-credit edges |
| Components.TxnRootIsKnown | ledger_daemon/recon.py:139-142 | the lookup of a credit's root among the order groups always finds a key |
| Components.ComponentsOf | ledger_daemon/recon.py:118-143 | every order lies in exactly one group, and each group holds exactly the orders and credits linked to it, sorted and without repeats |
| Enumeration.ProductMembers | ledger_daemon/recon.py:156-159 | the product lists exactly the ways of taking one option per order |
| Enumeration.EveryChoiceListed | ledger_daemon/recon.py:156-162 | every feasible decision table appears among the enumerated combinations that use no credit twice |
| Enumeration.ComboTotalIsTotal | ledger_daemon/recon.py:163 | the score added up over a combination is the total of the decisions it stands for |
| ComponentAssignment.ScoreCombos | ledger_daemon/recon.py:157-166 | the loop records exactly the combinations without a repeated credit, each with its total, and the largest of these totals |
| ComponentAssignment.MaximumIsOptimal | ledger_daemon/recon.py:165-168 | a recorded combination is within the margin of the best recorded total exactly when it is within the margin of the true optimum |
| ComponentAssignment.TieIsContested | ledger_daemon/recon.py:167-172 | more than one decision among the near-best combinations is the same as two near-optimal assignments disagreeing about the order |
| ComponentAssignment.AssignComponent | ledger_daemon/recon.py:146-173 | decisions follow one optimum of the component and an order is flagged exactly when near-optimal assignments disagree about it |
| Assignment.OptimalGlue | ledger_daemon/recon.py:316-322 | optima of two parts that share no credit make an optimum of the whole |
| Assignment.ContestedLocally | ledger_daemon/recon.py:146-154 | an order is contested in the whole graph exactly when it is contested inside its own part |
| Assignment.UncontestedIsUnique | ledger_daemon/recon.py:146-154 | every optimum decides an uncontested order alike |
| Matching.EdgeCountIsComponentSize | ledger_daemon/recon.py:317 | the summed candidate lists of a component count its edges |
| Matching.AbstainAll | ledger_daemon/recon.py:318-321 | every order of a component over the cap becomes an abstention with the tie flag, no other order changes |
| Matching.ComponentsSolveWhole | ledger_daemon/recon.py:316-322 | solving each component separately gives decisions of one optimum of the whole graph and flags by disagreement over the whole graph |
| Matching.MatchAll | ledger_daemon/recon.py:316-322 | the loop over components meets that specification: global optimum, global tie flags, abstention exactly over the cap |
| Matching.NoCreditTwice | ledger_daemon/recon.py:146-150 | no credit is assigned to two orders and none outside an order's candidates |
| Matching.OutstandingIsChosen | ledger_daemon/recon.py:163-172 | an edge beyond the tie margin with no other scoring edge is chosen and not flagged, unless its component is over the cap |
| Matching.UnflaggedBeatsMargin | ledger_daemon/recon.py:163-172 | a credit chosen without a tie flag is a candidate that scores more than the tie margin |
| Matching.CapIgnoresScores | ledger_daemon/recon.py:317-321 | which components are over the cap depends on the edges, not on their scores |
| Matching.UncappedIsGlobalOptimum | ledger_daemon/recon.py:316-322 | with no component over the cap no feasible assignment of the whole graph scores more than the result |
| Matching.RowOrderIrrelevant | ledger_daemon/recon.py:146-154 | two results for one graph agree on every flag and on every unflagged decision |
| Matching.PermutedRowsSameResult | ledger_daemon/recon.py:284-308 | permuting the order rows or any order's candidate rows changes no flag and no unflagged decision |
| Recon.SumNet | ledger_daemon/recon.py:226-228 | the loop adds up amount less fee less tax over the group |
| Recon.JoinByUtr | ledger_daemon/recon.py:235-241 | pass 1: the first capture whose UTR stands on a credit of the expected amount, and that credit |
| Recon.JoinByAmountAndDate | ledger_daemon/recon.py:242-250 | pass 2: the first unconsumed credit of the amount dated zero to three engine days after the latest capture |
| Recon.SettlementPasses | ledger_daemon/recon.py:208-253 | the loop computes the hits of the three passes in settlement order; `PassProofs.PassesExactly` says by rows which hits these are |
| Recon.BuildEdges | ledger_daemon/recon.py:278-308 | every fuzzy order gets its candidates in amount order, with no credit listed twice |
| Recon.ResolveAll | ledger_daemon/recon.py:328-334 | the verdict loop gives every order its verdict by the table; `VerdictTable` says by rows and numbers which verdict that is |
| Recon.Reconcile | ledger_daemon/recon.py:180-341 | the run is the composition of passes, pool, edges, assignment and verdict table, one verdict per order, each pinned by its own results below |
| Recon.RunExists | ledger_daemon/recon.py:180-341 | every validated batch has a run, whatever the engine and the configuration |
| ReconSafety.HitsSound | ledger_daemon/recon.py:224-253 | a settlement hit balances to the paisa and carries the evidence its pass claims |
| ReconSafety.CreditSharedExactly | ledger_daemon/recon.py:231-253 | two settlements share a credit exactly when the later one joins exactly, by name or UTR, on the credit of the earlier one |
| ReconSafety.OneCreditTwoSettlements | ledger_daemon/recon.py:231-241 | an instance: two settlements under one UTR take the same credit, whatever the narrations say |
| ReconSafety.DatedHitsDiffer | ledger_daemon/recon.py:242-253 | two amount-and-date joins never share a credit |
| ReconSafety.ChosenCredit | ledger_daemon/recon.py:271-308 | a chosen credit is a pool credit of an explained amount that no earlier pass consumed |
| ReconSafety.NoCreditServesTwice | ledger_daemon/recon.py:223-322 | a credit that pass 4 chooses for an order is chosen for no other order and joined by no settlement |
| ReconSafety.CandidateAmountMembers | ledger_daemon/recon.py:289-294 | candidate amounts are exactly the invoice, its TDS-shaped nets and its nets of listed evidence |
| ReconSafety.NoCandidatesMeansNoPayment | ledger_daemon/recon.py:271-308 | an order has no candidates exactly when no free credit in the feed could be its payment |
| ReconSafety.NeverChasePaidOrder | ledger_daemon/recon.py:256-308 | without a calibration, ALLOW for an order without gateway rows means no open dispute, a feed that reaches due date plus three, no possible payment, and a chase of the invoice |
| ReconSafety.CoverageReaches | ledger_daemon/recon.py:519-527 | the coverage test on the latest date in text order holds exactly when some row is dated three engine days after the due date or later |
| ReconSafety.PartialChaseIsRefund | ledger_daemon/recon.py:374-391 | ALLOW as partially paid means a balanced settlement and a chase of exactly the refunded total |
| ReconSafety.UnpaidWithGatewayRows | ledger_daemon/recon.py:354-411 | with gateway rows an unpaid verdict arises exactly from refund rows without a capture whose net is not zero, and nothing was frozen |
| ReconSafety.GatewayVerdicts | ledger_daemon/recon.py:354-409 | exactly which rows make a verdict frozen, failed, or settled |
| ReconSafety.InvoiceConserved | ledger_daemon/recon.py:470-508 | paid out of band received the invoice; paid net of TDS received the invoice less the cited evidence |
| PassProofs.PassesExactly | ledger_daemon/recon.py:224-253 | a settlement is confirmed exactly when the last credit that names it has its amount, or else a credit of the amount carries a UTR of its rows, or else an unclaimed credit of the amount lies zero to three days after its latest row; the pass of the hit says which |
| PassProofs.UnconfirmedMeans | ledger_daemon/recon.py:224-253 | no hit means that every credit of the amount fails all three ways, each spelled out |
| PassProofs.SettledByAppearance | ledger_daemon/recon.py:208-224 | settlements take their turn in the order of their first gateway row |
| PassProofs.DatedIsFirst | ledger_daemon/recon.py:242-250 | of several credits that fit by amount and date the first in the feed is taken |
| PassProofs.UtrIsFirst | ledger_daemon/recon.py:235-241 | of several credits under the UTRs: the first gateway row with one, and the first credit under its UTR |
| Refunds.RepaidReceipt | ledger_daemon/recon.py:254-308 | every repayment is one possible payment with an unrepeated UTR, received to the paisa, of an order refunded in full |
| Refunds.FavouredIsRepaid | ledger_daemon/recon.py:310-322 | any such payment repays the order in every run that scores it beyond the margin and classifies it as a match |
| Refunds.RepaidIsInvoiceExactly | ledger_daemon/recon.py:289-294 | a repaid order received its invoice in every run of every engine with the same reading exactly when the batch holds no possible repayment of another amount |
| Refunds.RepaidMayBeShort | ledger_daemon/recon.py:470-508 | a validated batch where 990 rupees repay an invoice of 1000 in every run that matches them, and the verifier refuses the certificate |
| Refunds.OddRepaymentRejected | ledger_daemon/verifier.py:546-570 | no certificate of a repayment that is not the invoice is accepted |
| Refunds.RefundOnlyChase | ledger_daemon/recon.py:344-527 | an unpaid order with gateway rows is allowed a chase exactly when the feed reaches far enough and the gate's own limits agree |
| Refunds.ChasedDespitePayment | ledger_daemon/recon.py:344-527 | a batch with a lone refund row where every run allows the chase although a free credit of the whole invoice is in the feed |
| ReconSafety.AmountsAccount | ledger_daemon/recon.py:344-527 | received and due amounts of every verdict account for the invoice in one of four ways |
| VerdictTable.MatchedVerdict | ledger_daemon/recon.py:436-527 | without gateway rows and disputes, an untied choice: paid out of band, net of proven tax, possible withholding, unpaid or ambiguous, each exactly by probability, threshold, cost, amounts, tax evidence and repetition of the UTR; and the money received |
| VerdictTable.MatchedEvidence | ledger_daemon/recon.py:454-469 | its evidence is authorised exactly by a calibration in force whose threshold the score reaches, and names that calibration, score and authority |
| VerdictTable.UnmatchedVerdict | ledger_daemon/recon.py:412-435 | without a choice: ambiguous when contested, otherwise unpaid; all possible payments are cited, a rejection carries the best score, and coverage means the feed reaches far enough |
| VerdictTable.RefundedVerdict | ledger_daemon/recon.py:436-517 | an order refunded in full is repaid exactly by an untied, unrepeated and sure match, otherwise ambiguous |
| VerdictTable.CapturedVerdict | ledger_daemon/recon.py:374-401 | a captured order: ambiguous without a hit, else partially paid, clean or late exactly by refunds and delay, with both amounts, the pass and every cited row |
| VerdictTable.CitedRows | ledger_daemon/recon.py:344-409 | frozen, failed, unconfirmed and netted verdicts cite exactly the open disputes, or exactly the gateway rows of their kind |
| Dates.SameYearAgreement | ledger_daemon/fs.py:116-122 | within one year the engine's day counter is the calendar's exactly unless a 29 February lies between |
| Dates.YearEndAgreement | ledger_daemon/fs.py:116-122 | across one year end the counters agree exactly in two leap-year cases |
| Dates.CountersAgreeExactly | ledger_daemon/fs.py:116-122 | for any two dates, in either order, exactly when the engine's counter is the calendar's; never across two year ends |
| Dates.CalendarCountsDays | ledger_daemon/verifier.py:526-528 | the calendar ordinal grows by one from each day to the next |
| Policy.AllowMeans | ledger_daemon/policy.py:104-203 | ALLOW is granted exactly when every gate agrees |
| Policy.RevocationOnlyRemoves | ledger_daemon/policy.py:132-203 | revoked authority turns every probabilistic decision into a hold and changes no other |
| Policy.BlockedOutcomes | ledger_daemon/policy.py:104-157 | halted scores are held; otherwise received money is denied, a dispute escalates, doubt is held |
| Policy.ChaseOutcomes | ledger_daemon/policy.py:159-203 | for a chaseable order exactly who is escalated, denied and allowed, with the limits as numbers |
| Money.TdsRateExact | ledger_daemon/money.py:42-54 | a receipt is TDS-shaped exactly when it is positive and the gross less a statutory share of it |
| Money.RupeesStr | ledger_daemon/money.py:57-73 | the digit-peeling loop prints the specified text |
| Money.GroupingShape | ledger_daemon/money.py:57-73 | more than three rupee digits print as a last group of three and earlier groups of two, the first of one or two |
| Parsers.PrintParseRoundTrip | ledger_daemon/parsers.py:49-60 | parsing a printed amount gives it back, for every integer |
| Parsers.ReadExactly | ledger_daemon/parsers.py:49-60 | a cell is refused exactly when, cleaned, it is neither empty, a lone minus, nor a signed amount of digits with at most two decimals |
| Parsers.WrittenIsRead | ledger_daemon/parsers.py:49-60 | every such amount is read at its value |
| Certificates.SourceHashMap | ledger_daemon/certificates.py:301-308 | the hash table covers every row, or is refused exactly when an id is empty or repeated |
| Certificates.SettlementMembers | ledger_daemon/certificates.py:411-417 | every named settlement maps to the sorted ids of all rows that name it |
| Certificates.CollectReferenced | ledger_daemon/certificates.py:425-440 | the cited rows are the order, the verdict's references, and the complete group of every settlement they name |
| Certificates.AmountTerms | ledger_daemon/certificates.py:340-408 | the loops build the terms of verdict and evidence in id order, or refuse a TDS verdict without evidence |
| Certificates.BuildCertificate | ledger_daemon/certificates.py:420-478 | a certificate is issued exactly over well-keyed rows that hold every reference |
| Verifier.IndexRows | ledger_daemon/verifier.py:285-295 | the first row under every id is indexed, and duplicates are noticed exactly when an id repeats |
| Verifier.CheckHashes | ledger_daemon/verifier.py:307-312 | missing rows and differing digests are reported exactly |
| Verifier.CheckTds | ledger_daemon/verifier.py:314-349 | claimed tax evidence is reported exactly when it is malformed |
| Verifier.CheckTerms | ledger_daemon/verifier.py:351-365 | terms without a claimed source, or whose magnitude differs from the cited column, are reported exactly |
| Verifier.ExpectTerms | ledger_daemon/verifier.py:428-480 | the expected terms and the missing-evidence report |
| Verifier.CheckSettlement | ledger_daemon/verifier.py:489-545 | which of the five settlement faults are reported |
| Verifier.CheckExhausted | ledger_daemon/verifier.py:606-619 | the stopped scan reports exactly when some credit contradicts the claim |
| Verifier.VerifyCertificate | ledger_daemon/verifier.py:255-656 | valid exactly when no check fails; each failing check is reported once; missing dates give the schema error alone; `ClaimSoundness` says what acceptance means in rows and `ErrorCodes` what the codes do |
| ProofSoundness.SettlementCertificateBalances | ledger_daemon/verifier.py:489-545 | an accepted settlement certificate: the cited rows are one settlement, their nets add up to the one credit, received plus due is the invoice, due is the refunded total |
| ProofSoundness.ClaimedGroupIsComplete | ledger_daemon/verifier.py:496-506 | the cited rows are the complete group, except exactly when refund or dispute rows drag payments into a group called None |
| NoneGroup.PaddedGroupIsAccepted | ledger_daemon/verifier.py:496-506 | for any order alone in a settlement called None and any other order's unsettled payment that a refund row names: a claim over both under one credit is accepted |
| NoneGroup.PaddingExists | ledger_daemon/verifier.py:496-506 | a concrete such claim, accepted under any digests, whose cited rows are not the settlement |
| ProofSoundness.NetOfTdsCertificateBalances | ledger_daemon/verifier.py:546-559 | accepted as paid net of TDS: credit plus one sound piece of the order's evidence is the invoice, and the order has no gateway rows |
| ProofSoundness.RepaidCertificateBalances | ledger_daemon/verifier.py:562-570 | accepted as refunded then repaid: all the order's gateway rows are cited and net to zero, the credit is the invoice |
| ProofSoundness.OutOfBandCertificateBalances | ledger_daemon/verifier.py:546-561 | accepted as paid out of band: one credit of exactly the invoice and no gateway rows |
| ProofSoundness.ClaimBindsTheBatch | ledger_daemon/verifier.py:299-312 | with collision-free digests one proof hash is accepted over one batch only |
| ProofCompleteness.FreshSources | ledger_daemon/certificates.py:442-464 | a fresh certificate of any verdict passes every source and expectation check |
| ProofCompleteness.FreshSchema | ledger_daemon/certificates.py:340-408 | for any verdict the terms written are the terms the verifier expects |
| SettlementProofs.SettledIsIssued | ledger_daemon/certificates.py:420-464 | a verdict of passes 1 to 3 over well-keyed rows is never refused a certificate |
| SettlementProofs.SettlementCertificateVerified | ledger_daemon/verifier.py:489-545 | its certificate is accepted exactly when the live rows are confined to one settlement, refunds stay below the invoice, and calendar delays agree with the engine's; for a settlement called None what refund and dispute rows must name |
| SettlementProofs.SettledOrderIsAccepted | ledger_daemon/verifier.py:489-545 | in every run, conditions a caller can read off the rows lead to acceptance |
| SettlementProofs.OneSettlementIsProvable | ledger_daemon/certificates.py:340-464 | the same row conditions imply the exact one |
| SettlementProofs.YearEndIsRejected | ledger_daemon/verifier.py:538-545 | a batch captured on 31 December and settled on 1 January is issued as late and rejected |
| SettlementProofs.YearEndHappens | ledger_daemon/certificates.py:420-464 | that batch is validated, has a run, and its verdict gets a certificate |
| IssueProofs.EveryVerdictIsIssued | ledger_daemon/certificates.py:420-464 | over well-keyed rows every order of every run gets a certificate |
| ScoredProofs.OutOfBandAcceptedExactly | ledger_daemon/verifier.py:546-561 | a certificate of an order paid out of band is accepted exactly when its score is within a million and authority names a calibration |
| ScoredProofs.NetOfTdsAcceptedExactly | ledger_daemon/verifier.py:546-561 | a certificate of an order paid net of TDS is accepted exactly when, besides, its one piece of evidence is sound |
| ScoredProofs.RepaymentAcceptedExactly | ledger_daemon/verifier.py:546-570 | a certificate of a repaid order is accepted exactly when, besides, the receipt is the invoice and no other order's row lies in a settlement of this order |
| UnpaidProofs.UnpaidAcceptedExactly | ledger_daemon/verifier.py:571-619 | a certificate of an unpaid order, exactly: after an exhausted search, after rejected candidates, and never after a match that was classified away |
| FrozenProofs.OtherAcceptedExactly | ledger_daemon/verifier.py:586-639 | frozen, failed and undecided orders: refused only for several open disputes, one above the invoice, or a malformed score |
| RefusalProofs.ManyDisputesRejected | ledger_daemon/verifier.py:594-605 | in every run an order with several open disputes is frozen by them, and the verifier accepts no certificate of it |
| RefusalProofs.TwoDisputesRejected | ledger_daemon/verifier.py:594-605 | a validated batch of one order and two open disputes where this happens, in every run |
| RefusalProofs.UnpaidAfterMatchExactly | ledger_daemon/recon.py:446-527 | an order without captures and disputes is unpaid by pass 4 exactly when the assignment chose a possible payment without a tie and the classifier held it for no payment |
| RefusalProofs.AwayNeedsDoubt | ledger_daemon/recon.py:446-527 | such a credit scores beyond the tie margin and is held less likely than not |
| RefusalProofs.SureEngineNeverClassifiesAway | ledger_daemon/fs.py:112-113 | with a probability of at least one half beyond the tie margin, as the logistic has, this never happens |
| RefusalProofs.ClassifiedAwayRejected | ledger_daemon/verifier.py:40-54 | a validated batch of one order and one free credit of its invoice: every run that classifies the match away calls the order unpaid, and the verifier accepts no certificate of it |
| CertificateContents.FreshCites | ledger_daemon/certificates.py:420-442 | an issued certificate cites exactly the order, the references, a repaid order's gateway rows, and every row of a settlement that one of these names, each under its digest |
| CertificateContents.FreshCopies | ledger_daemon/certificates.py:442-464 | it repeats verdict, amounts, pass and provenance, and is dated by the latest row of the batch |
| ClaimSoundness.AcceptedIsBound | ledger_daemon/verifier.py:268-312 | an accepted claim of any verdict: version, proof hash, expected identities, unique ids, and the digest of every cited row |
| ClaimSoundness.AcceptedProvenance | ledger_daemon/verifier.py:272-283 | known path, score within a million, authorisation only with a calibration, none of it on exact and manual paths |
| ClaimSoundness.AcceptedRuleIds | ledger_daemon/verifier.py:408-420 | one known pass, the claimed verdict, and no other rule id |
| ClaimSoundness.AcceptedTaxEvidence | ledger_daemon/verifier.py:314-349 | cited tax evidence has a positive amount, digests of both parties, a certificate, and a rule in force on its date |
| ClaimSoundness.AcceptedTerms | ledger_daemon/verifier.py:351-393 | the terms add up to nothing and every sourced term is a cited column up to its sign |
| ClaimSoundness.SettlementTermsListed | ledger_daemon/verifier.py:428-459 | the terms of an accepted settlement claim: invoice, receipt, debt, every cited row with fee and tax, the credit, and nothing else |
| ClaimSoundness.ScoredTermsListed | ledger_daemon/verifier.py:428-482 | the terms of an accepted scored claim: invoice against receipt, withheld tax by its evidence, credit against proven receipt, refunds of a repaid order, and nothing else |
| ClaimSoundness.PlainTermsListed | ledger_daemon/verifier.py:428-436 | an unpaid claim carries invoice and exposure, undecided and failed claims carry no terms |
| ClaimSoundness.SettlementCertificateEvidence | ledger_daemon/verifier.py:489-545 | beyond the balance: one credit, a row of the order, what the declared pass needs, and the delay the verdict claims |
| ClaimSoundness.FailedCertificateMeans | ledger_daemon/verifier.py:586-593 | an accepted failure cites a failed gateway row of its own order |
| ClaimSoundness.FrozenCertificateMeans | ledger_daemon/verifier.py:586-605 | an accepted freeze cites a chargeback of its own order, or exactly one dispute, open, of its order and within the invoice |
| ClaimSoundness.UnpaidCertificateMeans | ledger_daemon/verifier.py:571-619 | accepted as unpaid: no gateway row and no plausible credit of a possible amount, or rejected credits of possible amounts, scored and unauthorised |
| ClaimSoundness.UndecidedCertificateMeans | ledger_daemon/verifier.py:620-629 | accepted as undecided: no money claimed; a captured row without a pass, rows netting to nothing by arithmetic |
| ErrorCodes.SourceCodesMean | ledger_daemon/verifier.py:285-312 | repeated ids, uncited order, missing row and differing digest each have their own code, reported exactly then |
| ErrorCodes.RootCodeMeans | ledger_daemon/verifier.py:299-304 | the root code is reported exactly for a missing or foreign root |
| ErrorCodes.ClaimCodesMean | ledger_daemon/verifier.py:268-637 | version, proof hash, money equation and expected identities likewise |
| ErrorCodes.AmountCodeMeans | ledger_daemon/verifier.py:366-390 | the amount code is reported exactly when the claimed amounts disagree with the invoice in the way the verdict ties them to it |
| ErrorCodes.TermCodesMean | ledger_daemon/verifier.py:351-365 | a term without a claimed row, and a term that misstates its column, the receipt or the debt, each have their own code |
| ErrorCodes.SettlementCodesMean | ledger_daemon/verifier.py:489-545 | so do the five faults of a settlement claim in shape |
| Identities.VerifySettlementIdentity | ledger_daemon/identities.py:59-108 | both sides, terms and references, and each fault reported exactly once and exactly when present |
| Identities.VerifyInvoiceIdentity | ledger_daemon/identities.py:111-159 | the same for invoice coverage; negative tax is refused |
| Identities.BuildIdentityCertificate | ledger_daemon/identities.py:27-47 | a certificate is built exactly for a valid identity over well-keyed rows that hold every reference |
| IdentityVerifier.VerifyIdentityCertificate | ledger_daemon/verifier.py:63-210 | valid exactly when no check fails, each failing check reported once |
| IdentityProofs.SettlementTermsSum | ledger_daemon/identities.py:82-99 | the terms add up to captures net of fee and tax, less refunds, plus signed adjustments |
| IdentityProofs.SettlementIdentityBalances | ledger_daemon/verifier.py:135-165 | an accepted settlement identity balances over the claimed rows and its adjustments have proper signs |
| IdentityProofs.InvoiceIdentityBalances | ledger_daemon/verifier.py:166-194 | an accepted invoice identity: captured payments less refunds plus withheld tax are the invoice |
| IdentityProofs.SettlementIdentityIsIssued | ledger_daemon/identities.py:27-47 | no valid settlement identity over rows that are present is refused a certificate |
| IdentityProofs.SettlementIdentityAccepted | ledger_daemon/identities.py:59-108 | every certificate of a valid settlement identity is accepted |
| IdentityProofs.InvoiceIdentityAccepted | ledger_daemon/identities.py:111-159 | every certificate of a valid invoice identity whose tax has its ledger entry is accepted |
| IdentityProofs.InvoiceIdentityExactly | ledger_daemon/identities.py:111-159 | the certificate of a valid invoice identity is accepted exactly when its withheld tax, if any, is a ledger entry among the rows |
| IdentitySoundness.AcceptedIdentityIsBound | ledger_daemon/verifier.py:72-98 | an accepted identity claim by any author: version, kind, proof hash, batch root, and the digest of every cited row |
| IdentitySoundness.SettlementSides | ledger_daemon/verifier.py:135-152 | its captures, refunds and adjustments are exactly the cited rows of that kind for the settlement |
| IdentitySoundness.InvoiceSides | ledger_daemon/verifier.py:166-194 | its payments, refunds and withheld tax are exactly the cited rows of that kind for the order |
| IdentitySoundness.AcceptedIdentitySides | ledger_daemon/verifier.py:123-206 | both claimed sides are the subject's amount and the sum of terms, each term a cited column up to its sign |
| IdentitySoundness.SettlementValidExactly | ledger_daemon/identities.py:59-108 | the issuer finds a settlement identity valid exactly when its rows are its own, used once, and balance |
| IdentitySoundness.InvoiceValidExactly | ledger_daemon/identities.py:111-159 | the same for invoice coverage, and withheld tax needs a source |
| Routes.PathTo | ledger_daemon/cases.py:217-244 | on any finite graph: a shortest route that never passes through the avoided state, refused exactly when there is none |
| Cases.CaseRoute | ledger_daemon/cases.py:217-244 | the same on the declared case graph, with the refusal naming both states |
| Cases.EdgesAreNamed | ledger_daemon/cases.py:235 | edges are tried in name order |
| Cases.RouteIsAccepted | ledger_daemon/cases.py:307-364 | a computed route is accepted at the current version and ends on its target |
| Cases.CaseStore.Open | ledger_daemon/cases.py:269-300 | opens at version 1 with one event, or returns the existing case untouched |
| Cases.CaseStore.AdvanceCase | ledger_daemon/cases.py:307-369 | applies the whole path or rolls everything back, consumed capability included |
| Cases.EveryRunProjects | ledger_daemon/cases.py:269-381 | after any transactions a history is numbered from 1 to the version, chains from OPEN along declared edges, and ends in the stored state |
| Cases.TerminalAbsorbs | ledger_daemon/cases.py:83-99 | a resolved or written-off case is never touched again |
| Cases.RefusalChangesNothing | ledger_daemon/cases.py:307-369 | specification side of the rollback that `Cases.CaseStore.AdvanceCase` proves: there a refused operation and an empty path are the identity, and so is opening again |
| Cases.OneWinner | ledger_daemon/cases.py:328-360 | of any writers holding one version with a path to walk at most one succeeds |
| Cases.AuthorityUsedOnce | ledger_daemon/cases.py:340-345 | a capability that authorised one write authorises no other |
| CaseHistory.EdgesBothWays | ledger_daemon/cases.py:83-104 | the declared edges agree with a second table of the states from which each state may be entered |
| CaseHistory.TerminalExactly | ledger_daemon/cases.py:80-104 | resolved and written off are exactly the states that nothing can be entered from |
| CaseHistory.ClosedMeansVerified | ledger_daemon/cases.py:83-104 | after any transactions a closed case that nobody escalated was assigned, then investigated, then verified |
| CaseHistory.OpenExactly | ledger_daemon/cases.py:269-300 | opening needs a subject and a declared reason; what is stored, and that an existing case is left alone |
| CaseHistory.AdvanceExactly | ledger_daemon/cases.py:307-360 | a write succeeds exactly for a named actor at the current version on declared edges, under an unexpired unused capability of that actor for that scope, if any |
| CaseHistory.AdvanceWrites | ledger_daemon/cases.py:340-369 | one event a hop under the actor's name, call data on the last, next version, other cases untouched, the capability recorded |
| Capabilities.AnalystRegistry.Issue | ledger_daemon/rules.py:208-254 | issues exactly to an active analyst with credential and permission, for a subject, a version and a future expiry |
| Capabilities.AnalystRegistry.VerifyAndConsume | ledger_daemon/rules.py:297-309 | accepts and records an issued, unexpired, unused capability of exactly this scope; otherwise changes nothing |
| Capabilities.AnalystRegistry.VerifyConsumed | ledger_daemon/rules.py:311-322 | accepts exactly capabilities recorded as consumed for this scope |
| Capabilities.RunKeepsUses | ledger_daemon/rules.py:208-309 | after any run every recorded use is of a capability issued to that person for that scope, and no record is lost |
| Capabilities.ConsumedAtMostOnce | ledger_daemon/rules.py:297-309 | whatever happens in between, a capability is consumed at most once |
| CapabilityRuns.IssuedExactly | ledger_daemon/rules.py:208-254 | over any run a capability exists exactly when an active analyst with credential and permission asked for it before its expiry |
| CapabilityRuns.UsedExactly | ledger_daemon/rules.py:256-309 | a use is recorded exactly when a capability with that nonce was shown before its expiry for its own scope |
| CapabilityRuns.FirstUseRecorded | ledger_daemon/rules.py:297-309 | the record is of the first use and stays |
| CapabilityRuns.WorksUntilExpiry | ledger_daemon/rules.py:208-309 | a capability just issued works until it expires, for its own scope only, as long as its nonce is unshown |
| CapabilityRuns.RequestRefusals | ledger_daemon/rules.py:224-241 | which fault each refusal of a request names |
| CapabilityRuns.ShowingRefusals | ledger_daemon/rules.py:261-309 | which fault each refusal of a shown capability names |
| Rules.RuleStore.AddRule | ledger_daemon/rules.py:830-853 | stores exactly an authenticated version-one proposal under a new id |
| Rules.RuleStore.MakeTransition | ledger_daemon/rules.py:892-942 | appends one version at the expected version and status, consuming the capability in the same transaction, or changes nothing |
| Rules.RuleStore.Record | ledger_daemon/rules.py:944-961 | records a replay whose receipt is verified against the version that was read |
| Rules.RuleStore.Approve | ledger_daemon/rules.py:963-986 | appends the approval under a verified capability for exactly this version, or changes nothing |
| Rules.RuleStore.Activate | ledger_daemon/rules.py:988-1004 | activates and returns a receipt over the stored history |
| Rules.RuleStore.ValidateActivation | ledger_daemon/rules.py:1006-1023 | accepts exactly receipts that match registry, active version and history |
| Rules.ActiveRulesEarnedIt | ledger_daemon/rules.py:830-1004 | after any operations an active rule is version four of one unchanged rule with history PROPOSED, REPLAY_PASSED, APPROVED, ACTIVE, two different consumed capabilities for versions 2 and 3, and a stored replay without regression |
| Rules.ReceiptsStayValid | ledger_daemon/rules.py:973-1023 | an activation receipt validates at once and after any later operations |
| Rules.SettledRulesAreFinal | ledger_daemon/rules.py:892-942 | an active or rejected rule gets no further version |
| Rules.RefusalChangesNothing | ledger_daemon/rules.py:898-942 | specification side of the rollback that `Rules.RuleStore.MakeTransition` proves: there a refused operation is the identity on rules and consumed capabilities |
| RuleProgress.AddedExactly | ledger_daemon/rules.py:830-853 | a proposal is stored exactly when authentic, of one source case, at version one and new |
| RuleProgress.RecordExactly | ledger_daemon/rules.py:944-961 | a replay is recorded exactly on an unmoved proposal with a receipt the runner accepts |
| RuleProgress.RecordedStatus | ledger_daemon/rules.py:944-961 | the recorded rule passes exactly when no case regresses and neither corpus loses coverage, otherwise it is rejected |
| RuleProgress.ApprovalExactly | ledger_daemon/rules.py:963-971 | approval succeeds exactly at version two after a passed replay under a good capability of a human |
| RuleProgress.ActivationExactly | ledger_daemon/rules.py:988-1004 | activation succeeds exactly at version three after approval under a good capability of a human and a UTC time |
| RuleProgress.ReceiptExactly | ledger_daemon/rules.py:1006-1023 | the one valid receipt of a rule names its registry, activator, time and the digest of its four versions |
| RuleProgress.ImportedCorporaReplay | ledger_daemon/replay.py:287-388 | over imported corpora every proposal can be replayed on any confirmed and any attack corpus |
| RuleRuns.DatabaseRunGrows | ledger_daemon/replay.py:347-388 | whatever happens, imported corpora stay as they are, a second import included, and rule histories are only appended to |
| RuleRuns.ActiveRulesEarnedItAfterImport | ledger_daemon/replay.py:347-388 | from an empty database, with the import among the operations: an active rule has the four-step history and a clean replay of the corpora that were imported |
| RuleRuns.ReceiptsStayValidAfterImport | ledger_daemon/rules.py:973-1023 | an activation receipt validates at once and after any later operations, imports among them |
| Replay.PromotableMeans | ledger_daemon/replay.py:497-519 | the gate opens exactly when no case turns wrong, no case's wrong paise rises, every proof is valid and neither corpus loses coverage |
| Replay.DecodeIsExact | ledger_daemon/replay.py:119-205 | a stored report is readable exactly when the gate would have written it |
| Replay.RunThenVerify | ledger_daemon/replay.py:424-475 | what the runner signs it accepts |
| Replay.VerifiedIsReplayed | ledger_daemon/replay.py:448-475 | an accepted receipt is the one the runner yields for these persisted corpora |
| RiskControl.EffectiveCaseBounds | ledger_daemon/risk_control.py:105-118 | the effective cases lie between one and the selected cases |
| RiskControl.AdmissibleLossWithinBudget | ledger_daemon/risk_control.py:105-118 | at an admissible threshold wrong paise times 10000 stay within budget times selected paise |
| RiskControl.FitRupeeRisk | ledger_daemon/risk_control.py:132-183 | the search meets the specification of the fit, input errors in source order; `RiskBounds.FitExactly` puts it in plain sums |
| RiskControl.CalibrationLossWithinBudget | ledger_daemon/risk_control.py:186-195 | replayed on its own calibration batch the fit stays within the budget |
| RiskBounds.AdmissibleExactly | ledger_daemon/risk_control.py:105-118 | an admissible threshold, exactly: searched, enough cases, and wrong paise times 10000 within budget less allowance, the allowance taken at the quotient of squared sum and sum of squares |
| RiskBounds.FitExactly | ledger_daemon/risk_control.py:132-183 | authority exactly when such a threshold exists; then most rupees, highest on ties, with its bound (rounded-up loss plus allowance, at most 10000) and rounded-down coverage |
| DriftDetection.MedianExactly | ledger_daemon/drift.py:114-119 | the median is the value with at most (n-1)/2 smaller and n/2 larger values |
| DriftDetection.DistanceExactly | ledger_daemon/drift.py:143-146 | total variation is half the summed share differences over any list that holds every bucket once |
| DriftDetection.SignalsDetect | ledger_daemon/drift.py:187-234 | each of the five signals is severe, or at least a warning, exactly on a shift of its own statistic by its own limit |
| DriftDetection.SignalsReport | ledger_daemon/drift.py:187-234 | the baseline figure, live figure and distance of each signal |
| DriftDetection.HashIdentifiesRows | ledger_daemon/drift.py:148-151 | without collisions two windows have one hash exactly when they hold the same rows in some order |
| DriftDetection.DriftIsDetected | ledger_daemon/drift.py:187-234 | a scored window is severe exactly on a severe shift of some statistic and healthy exactly without any shift |
| Drift.HistogramBp | ledger_daemon/drift.py:134-140 | every bucket's share in basis points, rounded down |
| Drift.TotalVariation | ledger_daemon/drift.py:143-146 | the comparison of two histograms over the union of their buckets |
| Drift.TotalVariationSymmetric | ledger_daemon/drift.py:143-146 | the distance is symmetric |
| Drift.TotalVariationBounded | ledger_daemon/drift.py:143-146 | the distance lies between 0 and 10000 |
| Drift.OppositeWindows | ledger_daemon/drift.py:143-146 | windows in one bucket each, not the same, are 10000 apart |
| Drift.TailBelowPercentile | ledger_daemon/drift.py:126-131 | at most floor((n-1)/10) scores lie strictly below the tenth percentile |
| Drift.ObserveForgetsOrder | ledger_daemon/drift.py:187-234 | the report, hash included, does not depend on the order of the window |
| Drift.SeverityIsWorst | ledger_daemon/drift.py:187-234 | a scored window is as bad as its worst signal; one below the minimum is refused; `DriftDetection.SignalsDetect` says when each signal is how bad |
| Drift.BaselineIsHealthy | ledger_daemon/drift.py:170-234 | any reordering of the calibration window is healthy |
| Drift.AmountBucket | ledger_daemon/drift.py:239-250 | the bucket is the order of magnitude |
| Authority.AuthorityController.Apply | ledger_daemon/authority.py:129-152 | the new fields, the decision and the appended history entry, for every report |
| Authority.SevereCounterFixesState | ledger_daemon/authority.py:129-169 | the severe counter counts usable severe windows since the last usable healthy one and, unless zero, alone fixes the state |
| Authority.HistoryChains | ledger_daemon/authority.py:202-212 | each entry starts from the state the one before ended in |
| Authority.RestoringSteps | ledger_daemon/authority.py:154-200 | authority returns exactly by recalibration or by a severe window after a healthy one while revoked |
| Authority.LatchExact | ledger_daemon/authority.py:154-200 | the latch holds for exactly the runs without such a severe window |
| Authority.LatchCounterexample | ledger_daemon/authority.py:154-169 | a run of three severe, one healthy and one severe window regains authority without recalibration |
| Authority.RevokingSteps | ledger_daemon/authority.py:154-169 | only a second or later severe window since the last healthy one revokes |
| Authority.CalibrationChangesOnlyByRecalibration | ledger_daemon/authority.py:171-200 | the calibration id in force changes only with A6 |
| Authority.RecoveryTakesTwoHealthy | ledger_daemon/authority.py:171-200 | recalibration takes a second healthy window with no severe one since the first, under another calibration, and no less |
| Authority.SevereWindowsEscalate | ledger_daemon/authority.py:154-169 | one severe window since the last healthy one warns, two degrade, three or more halt |
| Authority.HealthyWindowClears | ledger_daemon/authority.py:171-182 | while authority stands a healthy window turns a warning back into calibrated |
| Authority.OtherWindowsPass | ledger_daemon/authority.py:129-152 | an undersized or merely warning window changes neither state nor counters |
| SimilarityLaws.PartnerExactly | ledger_daemon/similarity.py:25-38 | a character is matched with the first free equal one at most half the longer length, less one, away |
| SimilarityLaws.OneCommonScore | ledger_daemon/similarity.py:25-49 | two strings with one common character: the score in closed form when the places are near, nothing otherwise |
| SimilarityLaws.RearrangedScore | ledger_daemon/similarity.py:41-49 | a near rearrangement of distinct characters loses exactly by half its misplaced characters |
| SimilarityLaws.BoostExactly | ledger_daemon/similarity.py:52-64 | above seven tenths each common leading character, up to four, closes a tenth of the distance to one |
| Similarity.MatchLoop | ledger_daemon/similarity.py:30-38 | both flag arrays end with exactly as many flags as matches, placed by greedy matching |
| Similarity.CountTranspositions | ledger_daemon/similarity.py:41-48 | the walk over the second array stays in bounds and counts the positions where the matched characters differ |
| Similarity.Jaro | ledger_daemon/similarity.py:17-49 | the loops compute the score, which lies in [0, 1] |
| Similarity.JaroOneIffEqual | ledger_daemon/similarity.py:17-49 | only equal strings score one |
| Similarity.JaroWinkler | ledger_daemon/similarity.py:52-64 | the boosted score, in [0, 1] |
| Similarity.JaroWinklerBounds | ledger_daemon/similarity.py:52-64 | the boost never lowers a score, never passes one, and keeps one for equal strings |
| Conformal.ThresholdIsRanked | ledger_daemon/conformal.py:36-44 | the threshold is the score at rank ceil((n+1)(1-alpha)), kept between 1 and n |
| Conformal.Coverage | ledger_daemon/conformal.py:36-44 | at least min(n, ceil((n+1)(1-alpha))) calibration matches lie within the threshold |
| Conformal.CoverageShare | ledger_daemon/conformal.py:36-44 | all matches lie within the threshold or at least (n+1)(1-alpha) of them; strictly within it none, or fewer than that |
| Conformal.CoveredNeverNonMatch | ledger_daemon/conformal.py:47-55 | the two labels in terms of the threshold; a covered match is never a non-match |
| Conformal.MissesBounded | ledger_daemon/conformal.py:36-55 | how many calibration matches can be called non-matches |
| Conformal.ThresholdAntitone | ledger_daemon/conformal.py:36-44 | the threshold never rises with alpha |

## Left out

- Routes.PathTo: does not say which of several shortest routes is returned, only that it is one; the source breaks ties by state name, and the model tries edges in that order.
- Recon.Reconcile: dictionaries of lists (orders to captures, amounts to credits, UTRs to credits) are read as filters of the row lists in row order; their incremental construction is not modelled.
- Components.ComponentsOf: the order of the groups in the returned list is not stated, only their contents.
- Certificates.CollectReferenced: sets are walked in arbitrary order, as in the source; with two cited tax-evidence rows the issuer's pick is the first in row order.
- Certificates.BuildCertificate: canonical JSON, the on-disk proof bundle and its manifest are not part of this model; digests take typed values.
- Verifier.VerifyCertificate: rows and claims are typed, so the codes for rows without an identifier and for amounts that are not integers cannot arise, and a date is either a calendar date or unreadable; the codes are stated as a set without repeats, not in their order.
- Identities.VerifySettlementIdentity: the error list is stated as its set of codes without repeats, not its order.
- Identities.VerifyInvoiceIdentity: the same; the order of the codes is not stated.
- IdentityVerifier.VerifyIdentityCertificate: the same, over typed rows.
- Money.RupeesStr: the text is specified by grouping and by its round trip; the currency sign is one fixed character.
- Drift.BaselineIsHealthy: how observations are built from rows (`observations`, `narration_score_ppm`) is not modelled.
- Similarity.JaroWinkler: the standard-library path only; the optional accelerated library is not part of this model, and reals replace floats.
- Conformal.Coverage: exact reals; the rounding of the float quantile level is not modelled.
- RiskControl.FitRupeeRisk: the logarithmic confidence allowance is an arbitrary non-negative parameter and the calibration id an argument; type errors do not arise.
- Capabilities.AnalystRegistry.Issue: key derivation, the HMAC, the identifier pattern of subjects and the spelling of expiry dates are not modelled; nonces need not be distinct for the results here.
- Cases.CaseStore.AdvanceCase: event metadata is the JSON text; the refusal of data that is not JSON is not modelled. A case id stands for the digest of subject and reason.
- Rules.RuleStore.AddRule: compiling a proposal from an authenticated case history is an argument; the evidence registry behind it is not part of this model.
- RuleRuns.ActiveRulesEarnedItAfterImport: the commitment digest of the corpora, the runner's random id and its signing key are arguments; corpus ids need only be non-empty, their pattern is not modelled.
- Ablation switches (`greedy`, `simple_scores`, thresholds turned off): the shipped configuration is modelled.
- Fellegi-Sunter weights and narration patterns: parameters.
- Executor idempotency, sign-off, panels, proof trees, fault injection, source validation, span sanitising and refund coverage: not part of this model; the batch is what source validation hands over.
- HTTP, CLI, transports, CSV and JSONL reading, synthetic data, evaluation and reporting: not part of this model, which starts from typed rows and ends with the verdict on a certificate or an action.
