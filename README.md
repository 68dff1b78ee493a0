# MuSyC N-drug bookkeeping, in Dafny

This project models the discrete bookkeeping of the N-drug MuSyC synergy
model (the `MuSyC` class of `synergy.higher`). The model covers:

- the drug-state space: a state is a 0/1 vector of which drugs are engaged,
  encoded big-endian as an integer index;
- the Hamming distance between states and the single-drug add and remove
  transitions of a state;
- the labels: the drug string of a state, the difference string of two
  states and the edge string of a transition;
- the parameter registry: the counts of each family and the canonical
  parameter names in order;
- the fitting bounds resolved from the `<name>_bounds` and `<family>_bounds`
  overrides, stored by the model object, and the single-drug bounds read back
  from them;
- the synergistic-efficacy coefficient beta of a state.

Modules follow that structure:

- `Numbers`: doubles as `NaN | NegInf | Fin(real) | PosInf`, IEEE division,
  and the logarithm lifted to doubles.
- `StateSpace`: the encoding, Hamming distance and neighbours.
- `Labels`: drug, difference and edge strings.
- `Registry`: parameter families, names and counts.
- `Bounds`: bound resolution, the `MuSyC` class and the single-drug bounds.
- `Synergy`: the reference parent and beta.

The code of the class `MuSyC` is not included here; its behaviour is fixed
by its test suite, `tests/higher/test_musyc.py`, and every operation below
reproduces what that file asserts. Where the tests assert nothing (error
cases, the origin's drug string, list order), the model's choice is listed
under "## Left out".

The test file fixes the following:

- The E names run in state-index order (`E_0, E_1, E_2, E_1,2, E_3, …`), not
  grouped by drug count.
- `_parameter_names` holds no gamma names. Its length is 2^n + 2n + alpha,
  while `_num_gamma_params` still counts one gamma per alpha.
- The edge string is the PARENT's drug string, `_`, then the added drug
  (`[1,0,0] → [1,0,1]` gives `3_1`).
- The origin's E parameter is named `E_0`, while its drug string is empty.
- The alpha names are grouped by increasing parent index. Within a parent
  they run by decreasing added drug, that is, by list position left to
  right.

## Model

| member | source | states |
|---|---|---|
| StateSpace.IdxToState | tests/higher/test_musyc.py:67-78 | succeeds exactly for 0 <= idx < 2^n, giving an n-long state that encodes idx; a domain error otherwise |
| StateSpace.StateToIdx | tests/higher/test_musyc.py:80-90 | succeeds exactly on 0/1 vectors, giving an index below 2^len whose n-bit form is the vector |
| StateSpace.BitsAt | tests/higher/test_musyc.py:67-78 | list position p of the n-bit form of idx is bit n-1-p (big-endian) |
| StateSpace.IndexOfBits | tests/higher/test_musyc.py:67-90 | reading back the n-bit form of an in-range index gives the index |
| StateSpace.BitsOfIndex | tests/higher/test_musyc.py:67-90 | the n-bit form of a state's index is the state |
| StateSpace.EncodingRoundTrip | tests/higher/test_musyc.py:67-90 | `_idx_to_state` and `_state_to_idx` are mutually inverse on [0, 2^n) and on 0/1 vectors |
| StateSpace.IndexInjective | tests/higher/test_musyc.py:80-90 | two states of one length with the same index are equal |
| StateSpace.IndexUpdate | tests/higher/test_musyc.py:99-130 | setting (clearing) list position p raises (lowers) the index by 2^(n-1-p) |
| StateSpace.PopcountZero | tests/higher/test_musyc.py:99-112 | a state has no drug engaged exactly when its index is 0 |
| StateSpace.Hamming | tests/higher/test_musyc.py:92-97 | defined exactly for equal lengths, and then the number of differing positions |
| StateSpace.HammingMetric | tests/higher/test_musyc.py:92-97 | symmetric, and 0 exactly for identical states |
| StateSpace.HammingOne | tests/higher/test_musyc.py:92-97 | states differing at one position only are at distance 1 |
| StateSpace.Neighbors | tests/higher/test_musyc.py:99-130 | `_get_neighbors`: every drug gives exactly one add or one remove edge; the members and order of each list are NeighborsSpec's |
| StateSpace.NeighborsSpec | tests/higher/test_musyc.py:99-130 | add edges are exactly (k, idx+2^k) for clear bits k, remove edges exactly (k, idx-2^k) for set bits, each list without repeats in decreasing k (list position left to right), with one remove edge per engaged drug |
| StateSpace.OriginHasNoRemoveEdges | tests/higher/test_musyc.py:99-112 | the remove list is empty exactly for the origin |
| StateSpace.AddEdgeChild | tests/higher/test_musyc.py:99-130 | an add edge reaches the state with drug k+1 also engaged, one Hamming step away |
| StateSpace.RemoveEdgeParent | tests/higher/test_musyc.py:99-130 | a remove edge reaches the state with drug k+1 disengaged, one Hamming step away |
| StateSpace.FlipBit | tests/higher/test_musyc.py:99-130 | flipping bit k of an index flips list position n-1-k of its state and nothing else |
| StateSpace.AddRemoveInverse | tests/higher/test_musyc.py:99-130 | c is an add neighbour of p by drug k+1 exactly when p is a remove neighbour of c by the same drug |
| StateSpace.IdxToStateExamples | tests/higher/test_musyc.py:67-78 | the eight three-drug states of indices 0 to 7, and errors for 8 and -1 |
| StateSpace.StateToIdxExamples | tests/higher/test_musyc.py:80-90 | the eight three-drug indices, and an error for a non-0/1 entry |
| StateSpace.HammingExamples | tests/higher/test_musyc.py:92-97 | the asserted distances 0, 2, 2, 1, and an error for unequal lengths |
| StateSpace.NeighborsExamples | tests/higher/test_musyc.py:99-130 | the neighbour lists of [0,0,0] and of [0,1,1,0], each holding exactly the asserted edges |
| Labels.ParseNatToString | tests/higher/test_musyc.py:140-146 | a drug number's decimal form reads back as the number |
| Labels.SplitJoin | tests/higher/test_musyc.py:140-146 | splitting a comma-joined list of comma-free parts on commas gives the parts back |
| Labels.DrugsOfSpec | tests/higher/test_musyc.py:140-146 | the drugs of a state are exactly the 1-based positions counted from the right that hold 1, strictly ascending |
| Labels.DrugString | tests/higher/test_musyc.py:140-146 | `_get_drug_string_from_state`; a plain function whose contract is the lemmas DrugStringSpec and DrugStringChars below |
| Labels.DrugStringSpec | tests/higher/test_musyc.py:140-146 | the drug string parses back to the engaged drugs, ascending, and is "" exactly for the origin |
| Labels.DrugStringInjective | tests/higher/test_musyc.py:140-146 | states of one length with the same drug string are equal |
| Labels.DrugCount | tests/higher/test_musyc.py:140-146 | a state lists exactly as many drugs as it has engaged |
| Labels.NoDrugs | tests/higher/test_musyc.py:140-146 | a state lists no drugs exactly when none is engaged |
| Labels.DrugStringChars | tests/higher/test_musyc.py:140-146 | a drug string holds only digits and commas |
| Labels.SingleDrugString | tests/higher/test_musyc.py:140-146 | a state with one drug engaged at list position p has the drug string of drug n-p alone |
| Labels.DifferenceString | tests/higher/test_musyc.py:155-165 | `_get_drug_difference_string`; a plain function whose contract is the lemma DifferenceStringSpec below |
| Labels.DifferenceStringSpec | tests/higher/test_musyc.py:155-165 | the difference string lists exactly the drugs b engages and a does not, ascending; it is "" exactly when b engages nothing new, whatever b removes |
| Labels.EdgeString | tests/higher/test_musyc.py:148-153 | `_get_drug_string_from_edge`; a plain function whose contract is the lemmas EdgeStringParts and EdgeStringOfEdge below |
| Labels.EdgeStringParts | tests/higher/test_musyc.py:148-153 | partitioned at its first "_", the edge string gives back the parent's drug string and the difference string, so it reads back as the parent's drugs and the added drugs |
| Labels.EdgeStringOfEdge | tests/higher/test_musyc.py:148-153 | along an add edge the edge string is the parent's drug string, "_", and the added drug |
| Labels.AddedByFlip | tests/higher/test_musyc.py:155-165 | engaging one clear position adds that drug alone |
| Labels.SingleDrugIndexString | tests/higher/test_musyc.py:140-146 | the origin's drug string is "" and the state of index 2^i is drug i+1 alone |
| Labels.DrugStringExamples | tests/higher/test_musyc.py:140-146 | [1,1,0] gives "2,3" and [1,0,1,1,0] gives "2,3,5" |
| Labels.EdgeStringExample | tests/higher/test_musyc.py:148-153 | [1,0,0] to [1,0,1] gives "3_1" |
| Labels.DifferenceStringExamples | tests/higher/test_musyc.py:155-165 | the five asserted difference strings, including "" for no change and for a removal |
| Registry.NumEParams | tests/higher/test_musyc.py:21-33 | the E count is the length of the E names, one per state (2^n) |
| Registry.NumHParams | tests/higher/test_musyc.py:21-33 | the h count is the length of the h names |
| Registry.NumCParams | tests/higher/test_musyc.py:21-33 | the C count is the length of the C names |
| Registry.NumAlphaParams | tests/higher/test_musyc.py:21-33 | the alpha count n 2^(n-1) - n is the length of the generated alpha names and the number of add edges out of the non-origin states |
| Registry.NumGammaParams | tests/higher/test_musyc.py:21-33 | one gamma per alpha |
| Registry.AlphaCount | tests/higher/test_musyc.py:21-65 | the number of alphas is the sum over all non-origin states of the length of their `_get_neighbors` add list, and twice (alphas + n) is n 2^n |
| Registry.AlphasOfAddEdges | tests/higher/test_musyc.py:35-65 | the alphas of a parent state are exactly the alphas of its `_get_neighbors` add edges, in list order, each named by its edge string |
| Registry.AlphaPerAddEdge | tests/higher/test_musyc.py:21-65 | a parent state has one alpha per add edge |
| Registry.ZeroSumAll | tests/higher/test_musyc.py:21-33 | summed over all 2^n states, the clear positions number n 2^(n-1) |
| Registry.ParameterNames | tests/higher/test_musyc.py:35-65 | `_parameter_names` holds one name per counted E, h, C and alpha parameter (its exact three-drug value is ThreeDrugParameterNames) |
| Registry.NumParamsTwoDrugs | tests/higher/test_musyc.py:21-27 | counts 4, 2, 2, 2, 2 for two drugs |
| Registry.NumParamsThreeDrugs | tests/higher/test_musyc.py:29-33 | counts 8, 3, 3, 9, 9 for three drugs |
| Registry.EdgeHasAlpha | tests/higher/test_musyc.py:35-65 | every add edge out of a non-origin state has its alpha, named by the parent's drug string and the added drug |
| Registry.ThreeDrugParams | tests/higher/test_musyc.py:35-65 | the three-drug layout, parameter by parameter with its family |
| Registry.ThreeDrugParameterNames | tests/higher/test_musyc.py:35-65 | `_parameter_names` for three drugs is exactly the asserted list of 23 names |
| Bounds.ResolveBound | tests/higher/test_musyc.py:196-236 | with no applicable override a parameter is (-inf, inf); otherwise the override, and its log for h, C and alpha |
| Bounds.Override | tests/higher/test_musyc.py:196-236 | an override applies exactly when the parameter's own key or its family's key is present; the own key's value is taken whenever it is there, the family's otherwise |
| Bounds.OwnOverrideWins | tests/higher/test_musyc.py:196-236 | a parameter's own override decides its bound whatever its family override says |
| Bounds.FamilyOverrideApplies | tests/higher/test_musyc.py:196-236 | without its own override a parameter takes its family's override, and with neither it is unbounded |
| Bounds.LogIntervalFacts | tests/higher/test_musyc.py:196-236 | finite positive bounds log to finite bounds; (0, inf) logs to (-inf, inf) |
| Bounds.SingleDrugBounds | tests/higher/test_musyc.py:238-280 | in linear scale, each of E0, Emax, h and C takes its own key when present; with neither its own nor its family's key, E is (-inf, inf) and h and C are (0, inf) |
| Bounds.MuSyC.constructor | tests/higher/test_musyc.py:196-236 | the object stores `_parameter_names` and lower and upper bound vectors whose every entry is the resolved bound of the parameter in that slot |
| Bounds.MuSyC.GetDefaultSingleDrugKwargs | tests/higher/test_musyc.py:238-280 | the single-drug bounds of drug i+1 are the stored bounds of E_0 and E_(i+1), and of h_(i+1) and C_(i+1) taken back to linear scale |
| Bounds.SingleDrugProjection | tests/higher/test_musyc.py:238-280 | the single-drug bounds agree with the resolved bounds of the four parameters of that drug |
| Bounds.StoredSingleDrug | tests/higher/test_musyc.py:238-280 | read from stored bounds, the single-drug bounds are the slots 0, 2^i, 2^n+i and 2^n+n+i |
| Bounds.SingleDrugSlots | tests/higher/test_musyc.py:35-65 | E_0, E_(i+1), h_(i+1) and C_(i+1) sit at slots 0, 2^i, 2^n+i and 2^n+n+i |
| Bounds.SingleDrugNames | tests/higher/test_musyc.py:35-65 | the names at those slots |
| Bounds.InitBoundsEffect | tests/higher/test_musyc.py:196-236 | the E bounds of the initialisation test: own overrides for E_0 and E_1,2,3, E_bounds elsewhere |
| Bounds.InitBoundsHillAndPotency | tests/higher/test_musyc.py:196-236 | h_1 is (-1, 1) in log scale; the other h and all C are unbounded |
| Bounds.InitBoundsAlphaLow | tests/higher/test_musyc.py:196-236 | the first four alphas take alpha_bounds, logged to (-3, 3) |
| Bounds.InitBoundsAlphaHigh | tests/higher/test_musyc.py:196-236 | the last five alphas take alpha_bounds, logged to (-3, 3) |
| Bounds.InferSingleDrugBounds | tests/higher/test_musyc.py:238-280 | the three asserted single-drug bound sets, with E_bounds for drug 3's Emax and (0, inf) for h and C without an own key |
| Bounds.FamilyEffectBoundsReachSingleDrugs | tests/higher/test_musyc.py:436-441 | with only E_bounds given, E0 and Emax of every single-drug model take it |
| Synergy.LowestDrug | tests/higher/test_musyc.py:167-194 | the lowest-numbered engaged drug: engaged, and no lower-numbered drug is |
| Synergy.Parent | tests/higher/test_musyc.py:167-194 | the reference parent has one drug fewer and lies 2^(m-1) below the state, m its lowest drug |
| Synergy.ParentIsLastRemoveEdge | tests/higher/test_musyc.py:99-130 | the reference parent is the last remove edge of the state's neighbours, the one removing the lowest-numbered drug |
| Synergy.Beta | tests/higher/test_musyc.py:167-194 | NaN for fewer than two drugs; otherwise, when E_0 differs from the parent's E, a finite beta from which the state's E is recovered as E_parent - beta (E_0 - E_parent); when they are equal, NaN exactly when E_S equals E_parent |
| Synergy.BetaOfCombined | tests/higher/test_musyc.py:167-194 | an E vector built from a beta gives that beta back |
| Synergy.BetaSign | tests/higher/test_musyc.py:167-194 | if the parent lowers E below E_0, beta is positive exactly when the combination lowers E further, and zero exactly when it changes nothing |
| Synergy.ThreeDrugBetas | tests/higher/test_musyc.py:167-194 | the asserted betas -0.4, 0.0, 0.0625 and 3/17, and NaN for the four states with fewer than two drugs |

## Left out

- The two-drug MuSyC jacobian (`synergy/combination/jacobians/musyc_jacobian.py`) is not part of this model. It is a closed-form floating-point derivative.
- Surface evaluation and the asymptotic-limit test (tests/higher/test_musyc.py:286-365) are left out. They are real-valued dose-response formulas whose implementation is not part of this model.
- Fitting, bootstrap confidence intervals and data loading (tests/higher/test_musyc.py:368-493) are left out. They are nonlinear least squares, random seeds and file I/O.
- The Bliss model test (`tests/combination/test_bliss.py`) is left out. It fits foreign Hill models to synthetic data.
- `_get_edge_indices` (tests/higher/test_musyc.py:132-138) is left out: its test asserts nothing.
- Floating point is modelled by exact reals. The expected betas are compared approximately in the source, and 0.17647058823529413 is stated as 3/17.
- The natural logarithm is a function parameter `log`. It is extended to doubles by `ExtLog` (log 0 = -inf, log inf = inf, NaN for negatives). The test values e^±1 and e^±3 are parameters whose logarithms are given.
- Bounds.ResolveBound: does not reject an override whose lower end exceeds its upper end, because no test asserts what happens then.
- Bounds.InitBoundsEffect: the initialisation test is stated per parameter, as the resolved bound of each named parameter, not as one equation on the whole stored bound vector. The constructor's contract ties the two together slot by slot.
- Bounds.SingleDrugBounds: h and C without their own key fall back to the h_bounds and C_bounds family keys before (0, inf). No test gives a family key for them, so the order is chosen to match the E case (tests/higher/test_musyc.py:436-441).
- Synergy.Beta: division by zero follows IEEE (inf or NaN) rather than raising. Which one the source does is not visible.
- Synergy.Parent: the parent removes the lowest-numbered drug. In the asserted betas this is also the parent of smallest E, so the two candidate rules are not told apart by the examples.
- StateSpace.Neighbors: takes any natural number as the index and does not reject indices of 2^n or more. The source's behaviour on those is not visible.
- StateSpace.Neighbors: lists both edge lists by list position of the state, left to right (decreasing drug number), the order the alpha names follow. The tests compare the lists as multisets, so this order, and with it "last" in Synergy.ParentIsLastRemoveEdge, is the model's choice.
- StateSpace.IdxToState: the domain error for an index outside [0, 2^n) is the model's choice; the tests call `_idx_to_state` only on valid indices.
- StateSpace.StateToIdx: the domain error for an entry other than 0 or 1 is the model's choice; the tests call `_state_to_idx` only on 0/1 vectors.
- StateSpace.Hamming: the domain error for vectors of different lengths is the model's choice; the tests compare only vectors of one length.
- Labels.DrugString: the empty string for the origin is the model's choice; the tests label only states with at least one drug (the origin's E name, `E_0`, is asserted).
- Labels.DrugString, Labels.DifferenceString, Labels.EdgeString: carry no postcondition of their own, because the extra facts made the proofs about literal three-drug states too costly; their contracts are stated by the lemmas named in their rows.
