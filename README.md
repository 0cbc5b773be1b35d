# Skat scoring for suit and grand games, and the neural-network topology record

This project models two parts of the JSkat skat program in Dafny and proves
properties about them.

The first part is the scoring of **suit and grand games** (`SuitGrandRules`):

- the win test: the declarer needs more than 60 card points;
- schneider: a side made 30 card points or fewer;
- schwarz: a side won no trick;
- the final multiplier: the "with/without jacks" term, then one each for
  hand, ouvert, schneider and schwarz, and one more each for schneider and
  schwarz announced in a hand game;
- the game value: base value times multiplier, times −2 for a lost game;
- the declarer's cards (dealt cards plus skat) that the jacks term and the
  "with jacks" test read.

The second part is the **topology of a neural network** (`NeuralNet`). It
has a constructor that checks the hidden-layer count against the array of
hidden neuron counts. It also has four getters and a line-oriented text
form.

Files:

- `skat.dfy`, module `Skat`: the seats (0 forehand, 1 middlehand,
  2 rearhand), the declarer's two neighbours `(d+1)%3` and `(d+2)%3`, the
  cards and the game types.
- `suit_grand_rules.dfy`, module `SuitGrandRules`: the scoring rules.
- `network_topology.dfy`, module `NeuralNet`: the class `NetworkTopology`,
  its text form `Serialise`, and a reader `ReadTopology` for that text.

How the model takes its inputs:

- The rules read a game record. Per-seat card points are a `seq<int>` of
  length 3. The trick winners are a `seq<Seat>`. The announcement and
  outcome flags are a `ScoringFlags` value.
- The dealt cards live in a `SkatGameData` object. Reading the declarer's
  cards appends the skat to the declarer's dealt card list in place
  (`GetDeclarerCards`), and the model keeps that behaviour. Each call to
  `IsPlayWithJacks`, `GetMultiplier` or `CalcGameResult` therefore adds the two skat cards to
  that list once more.
- The jacks term is an input: a function of the declarer's cards and the
  game type, standing for the abstract `getMultiplier(CardList, GameType)`.
  `CalcGameResult` obtains it through `GetMultiplier`, as the source does, so
  it too appends the skat to the declarer's dealt card list.
- The game base value is an `int` input, because `SkatConstants` is not
  part of this model.
- Whether the game is lost is an input flag. `PartySchneiderByDeclarerScore`
  and the two worked games set it to `!CalcGameWon(...)`.
- The two worked games use base values 9 (diamonds) and 24 (grand), and
  jacks terms 3 ("without two, play three") and 4 ("with three, play four").

For `NetworkTopology`, the Java constructor both checks and stores. The
model splits it in two. `Create` makes the length check and returns
`Failure` with the source's message where the source throws
`IllegalArgumentException`. The class constructor then stores the four
arguments. The stored array is the caller's own array, as in the source.

`ToString` builds the text line by line, as the `StringBuffer` loop does.
It is proved equal to `Serialise`, which joins the lines `input`, the input
count, `hidden <layers>`, one line per hidden count, `output` and the output
count, each followed by a line feed. `ToString` has no `modifies` clause, so
it leaves every field unchanged. `ReadTopology` is not in the source. It is
the inverse of the text form, used to prove that the text determines the
topology.

## Model

| member | source | states |
|---|---|---|
| `Skat.LeftNeighbor` | main/java/org/jskat/util/rule/SuitGrandRules.java:193 | the first opponent `(d+1)%3` is a seat other than the declarer |
| `Skat.RightNeighbor` | main/java/org/jskat/util/rule/SuitGrandRules.java:194 | the second opponent `(d+2)%3` differs from the declarer and from the first opponent |
| `Skat.SeatsAroundDeclarer` | main/java/org/jskat/util/rule/SuitGrandRules.java:184-198 | the declarer and its two neighbours are the whole table |
| `SuitGrandRules.CalcGameWon` | main/java/org/jskat/util/rule/SuitGrandRules.java:24-34 | when all 120 points are spread over the seats, the game is won iff the declarer has more points than both opponents together |
| `SuitGrandRules.WinThreshold` | main/java/org/jskat/util/rule/SuitGrandRules.java:28 | the game is won with 61 points and lost with 60 |
| `SuitGrandRules.IsSchneider` | main/java/org/jskat/util/rule/SuitGrandRules.java:141-163 | schneider iff some seat on the losing side made fewer than 31 points: the declarer in a lost game, either opponent on its own in a won game |
| `SuitGrandRules.EveryWonGameIsSchneider` | main/java/org/jskat/util/rule/SuitGrandRules.java:153-160 | when at most 120 points were counted, every won game is schneider under the seat-by-seat test |
| `SuitGrandRules.PartySchneiderByDeclarerScore` | main/java/org/jskat/util/rule/SuitGrandRules.java:133-140 | under the party reading of schneider (the losing party made at most 30 points together) with 120 points in play, a game is schneider iff the declarer made ≤ 30 or ≥ 90 points |
| `SuitGrandRules.TricksWonBy` | main/java/org/jskat/util/rule/SuitGrandRules.java:177-182 | the per-seat trick count is at most the number of tricks |
| `SuitGrandRules.TrickCountsSum` | main/java/org/jskat/util/rule/SuitGrandRules.java:177-182 | the three per-seat trick counts sum to the number of tricks |
| `SuitGrandRules.NoTrickIff` | main/java/org/jskat/util/rule/SuitGrandRules.java:188-194 | a seat's trick count is 0 iff no trick winner is that seat |
| `SuitGrandRules.IsSchwarz` | main/java/org/jskat/util/rule/SuitGrandRules.java:173-202 | the counting loop fills the per-seat counts; the result is `SchwarzAsWritten`: true iff the game is lost and some seat (declarer or either opponent) won no trick, so it is false for every game that is not lost |
| `SuitGrandRules.PartySchwarzIff` | main/java/org/jskat/util/rule/SuitGrandRules.java:165-172 | under the party reading of schwarz, a game is schwarz iff every trick went to the winning party: none to the declarer in a lost game, all to the declarer in a won game |
| `SuitGrandRules.SchwarzAsWrittenDisagrees` | main/java/org/jskat/util/rule/SuitGrandRules.java:184-201 | a won ten-trick sweep is schwarz for the party reading (the code says no); a lost game in which one opponent alone took no trick is schwarz for the code but not for the party reading |
| `SuitGrandRules.CalcGameResult` | main/java/org/jskat/util/rule/SuitGrandRules.java:40-85 | the declarer's dealt cards are extended by the skat in place, as in `GetMultiplier`; the jacks term is read from the extended cards and the game type; the step-by-step multiplier and value equal `GameValue`: base value × (jacks + [hand] + [ouvert] + [schneider] + [schneider ∧ hand ∧ announced] + [schwarz] + [schwarz ∧ hand ∧ announced]), × −2 if lost; with positive inputs the result is positive iff the game is not lost |
| `SuitGrandRules.MultiplierBounds` | main/java/org/jskat/util/rule/SuitGrandRules.java:42-70 | the multiplier lies between the jacks term and the jacks term + 6, and reaches + 6 exactly when all six bonus conditions hold |
| `SuitGrandRules.MultiplierSteps` | main/java/org/jskat/util/rule/SuitGrandRules.java:52-70 | ouvert adds exactly 1; schneider and schwarz add 1, plus 1 more when announced in a hand game; an announcement adds nothing unless it was achieved in a hand game |
| `SuitGrandRules.HandBonusIgnoresOutcome` | main/java/org/jskat/util/rule/SuitGrandRules.java:46-50 | the multiplier does not depend on whether the game is lost; hand adds 1 plus the announcement bonuses it unlocks, in won and lost games alike |
| `SuitGrandRules.LostValueIsMinusTwiceWonValue` | main/java/org/jskat/util/rule/SuitGrandRules.java:72-84 | for the same inputs, the value of the lost game is −2 × the value of the won game, which is base value × multiplier |
| `SuitGrandRules.DiamondsGameWith59IsLost` | test/java/org/jskat/control/iss/MessageParserTest.java:98-101 | diamonds, declarer at rearhand with 59 points against 61: lost, not schneider, value −54 |
| `SuitGrandRules.GrandGameWith85IsWon` | test/java/org/jskat/control/iss/MessageParserTest.java:163-166 | grand, declarer at rearhand with 85 points against 35: won, not schneider for the party, value 96; the seat-by-seat schneider test says schneider here |
| `SuitGrandRules.GetDeclarerCards` | main/java/org/jskat/util/rule/SuitGrandRules.java:106-110 | the declarer's dealt cards become the old dealt cards followed by the skat; the other seats' cards and everything else stay unchanged; that extended list is returned |
| `SuitGrandRules.IsPlayWithJacks` | main/java/org/jskat/util/rule/SuitGrandRules.java:112-120 | true iff the club jack is among the declarer's dealt cards or the skat, with the same in-place extension of the declarer's cards |
| `SuitGrandRules.GetMultiplier` | main/java/org/jskat/util/rule/SuitGrandRules.java:87-104 | the jacks term applied to the declarer's dealt cards plus the skat and to the game type, with the same in-place extension |
| `NeuralNet.Create` | main/java/org/jskat/ai/nn/util/NetworkTopology.java:25-80 | fails, with the source's message, iff the array length differs from the hidden-layer count; otherwise a new valid topology whose four getters return the constructor arguments, hidden count `i` being `hiddenNeuronCounts[i]`, and which stores the caller's array itself |
| `NeuralNet.NetworkTopology.constructor` | main/java/org/jskat/ai/nn/util/NetworkTopology.java:34-37 | stores the four arguments unchanged |
| `NeuralNet.NetworkTopology.InputNeuronCount` | main/java/org/jskat/ai/nn/util/NetworkTopology.java:45-48 | the input count of the topology the object describes |
| `NeuralNet.NetworkTopology.HiddenLayerCount` | main/java/org/jskat/ai/nn/util/NetworkTopology.java:55-58 | for a valid object, the number of hidden layers of the topology it describes |
| `NeuralNet.NetworkTopology.HiddenNeuronCount` | main/java/org/jskat/ai/nn/util/NetworkTopology.java:67-70 | the neuron count of hidden layer `layerID` of the topology the object describes |
| `NeuralNet.NetworkTopology.OutputNeuronCount` | main/java/org/jskat/ai/nn/util/NetworkTopology.java:77-80 | the output count of the topology the object describes |
| `NeuralNet.NetworkTopology.ToString` | main/java/org/jskat/ai/nn/util/NetworkTopology.java:86-121 | the text built line by line equals `Serialise` of the fields; reading it back gives the topology the object describes; no field changes |
| `NeuralNet.SerialiseLayout` | main/java/org/jskat/ai/nn/util/NetworkTopology.java:108-118 | the text is `"input\n"`, inputs, `"\n"`, `"hidden "`, the hidden-layer count, `"\n"`, each hidden count followed by `"\n"`, then `"output\n"`, outputs, `"\n"` |
| `NeuralNet.SerialiseLineFeeds` | main/java/org/jskat/ai/nn/util/NetworkTopology.java:108-118 | the text holds exactly hidden-layer count + 5 line feeds and ends with one |
| `NeuralNet.SerialiseRoundTrip` | main/java/org/jskat/ai/nn/util/NetworkTopology.java:108-120 | `ReadTopology` of the text gives back the input count, every hidden count in layer order and the output count |
| `NeuralNet.ReadCountsInverse` | main/java/org/jskat/ai/nn/util/NetworkTopology.java:112-115 | the hidden count lines, one per layer, read back as the hidden counts in layer order |
| `NeuralNet.IntToDecimalRoundTrip` | main/java/org/jskat/ai/nn/util/NetworkTopology.java:109 | the decimal text of an integer (with '-' when negative) reads back as that integer |
| `NeuralNet.IntToDecimalHasNoLineFeed` | main/java/org/jskat/ai/nn/util/NetworkTopology.java:114 | the decimal text of a count never contains a line feed, so each count is one line |

## Findings

| source | as written | input that shows it | evidently intended | confidence | as-written member | corrected member |
|---|---|---|---|---|---|---|
| main/java/org/jskat/util/rule/SuitGrandRules.java:184-201 | schwarz is tested only inside the "game lost" branch, and each opponent is tested on its own | the declarer wins all ten tricks: the game is won, so the result is false; a lost game where the declarer won 3 tricks, the left neighbour 7 and the right neighbour 0: the result is true | the losing party won no trick (the doc comment at line 167): a won sweep is schwarz, and a lost game in which the opponents' party took tricks is not | medium, not executed | `SuitGrandRules.IsSchwarz`, `SuitGrandRules.SchwarzAsWrittenDisagrees` | `SuitGrandRules.PartySchwarz`, `SuitGrandRules.PartySchwarzIff` |
| main/java/org/jskat/util/rule/SuitGrandRules.java:153-160 | in a won game each opponent's score is compared with 31 on its own | scores (20, 15, 85) with the declarer at rearhand: schneider. With at most 120 points counted, every won game is schneider | the opponents' party made at most 30 points together (the doc comment at line 135) | low, not executed: this holds only if `getScore` gives per-seat points, and `SkatGameData` is not part of this model | `SuitGrandRules.IsSchneider`, `SuitGrandRules.EveryWonGameIsSchneider` | `SuitGrandRules.PartySchneider`, `SuitGrandRules.PartySchneiderByDeclarerScore` |

The worked games use the corrected `PartySchneider` for "not schneider". `CalcGameResult`
takes the schneider and schwarz flags as stored in the game record, as the
source does.

## Left out

- Logging calls: they have no effect on results.
- The Java classes `SkatGameData`, `Player`, `Card`, `CardList`, `GameType` and `SkatConstants` are not part of this model, so their behaviour is not modelled. `Skat.Card`, `Skat.GameType` and the class `SuitGrandRules.SkatGameData` stand in for them and hold only what the rules read. Scores, trick winners and flags become values; the dealt cards stay object fields because they are updated in place. `Player.getLeftNeighbor`/`getRightNeighbor` become `(d+1)%3` and `(d+2)%3`, the same seats as at lines 193-194.
- The abstract `getMultiplier(CardList, GameType)` (the jacks count) and `SkatConstants.getGameBaseValue` are inputs, because their source is not available.
- `SuitGrandRules.CalcGameResult`: does not model 32-bit wrap-around of the `int` multiplication. Skat values are far below 2^31.
- `SuitGrandRules.CalcGameResult`: the schneider, schwarz and lost flags are taken as stored in the record. They are not recomputed from `IsSchneider`/`IsSchwarz`/`CalcGameWon`, because the source reads them from `SkatGameData` too.
- `SuitGrandRules.GetDeclarerCards`: returns the extended list as a value. In the source the returned `CardList` is the declarer's live list, so later changes through it are not captured.
- `NeuralNet.NetworkTopology.HiddenNeuronCount`: an index outside the array raises `ArrayIndexOutOfBoundsException` in the source. The model requires a valid index.
- Null arguments (a null `hiddenNeuronCounts` array, a null game record) are not modelled. Java `int` fields of `NetworkTopology` are unbounded integers, since they are only stored and printed.
