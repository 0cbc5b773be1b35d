/**
 * The topology of a neural network (input, hidden and output neuron
 * counts) and its line-oriented text form.
 */
module NeuralNet {

  datatype Option<T> = None | Some(value: T)

  datatype Result<T> = Success(value: T) | Failure(error: string)

  /** The message of the argument error raised for inconsistent layer counts. */
  const LayerMismatchMessage: string :=
    "Number of hidden layers and number of hidden neurons don't correspond."

  // ---------------------------------------------------------------------
  // Decimal text of an integer

  function DigitChar(d: int): (c: char)
    requires 0 <= d < 10
    ensures '0' <= c <= '9'
  {
    ('0' as int + d) as char
  }

  predicate IsDigits(s: string)
  {
    forall i :: 0 <= i < |s| ==> '0' <= s[i] <= '9'
  }

  /** Decimal digits of a natural number, most significant first, without leading zeros. */
  function NatToDecimal(n: nat): (s: string)
    ensures |s| >= 1 && IsDigits(s)
  {
    if n < 10 then [DigitChar(n)]
    else NatToDecimal(n / 10) + [DigitChar(n % 10)]
  }

  /** The decimal text of an integer, with a leading '-' when it is negative. */
  function IntToDecimal(n: int): string
  {
    if n < 0 then "-" + NatToDecimal(-n) else NatToDecimal(n)
  }

  /** Text that IntToDecimal could have produced: optional '-' then at least one digit. */
  predicate IsDecimal(s: string)
  {
    if |s| > 0 && s[0] == '-' then |s| > 1 && IsDigits(s[1..])
    else |s| > 0 && IsDigits(s)
  }

  function DigitsValue(s: string): nat
    requires IsDigits(s)
  {
    if s == [] then 0
    else DigitsValue(s[..|s| - 1]) * 10 + (s[|s| - 1] as int - '0' as int)
  }

  function DecimalValue(s: string): int
    requires IsDecimal(s)
  {
    if |s| > 0 && s[0] == '-' then 0 - DigitsValue(s[1..]) else DigitsValue(s)
  }

  lemma {:induction false} NatToDecimalRoundTrip(n: nat)
    ensures DigitsValue(NatToDecimal(n)) == n
  {
    if n >= 10 {
      NatToDecimalRoundTrip(n / 10);
      var s := NatToDecimal(n);
      assert s[..|s| - 1] == NatToDecimal(n / 10);
    }
  }

  /** The decimal text of an integer is a single line. */
  lemma IntToDecimalHasNoLineFeed(n: int)
    ensures '\n' !in IntToDecimal(n)
  {
  }

  /** Reading back the decimal text of an integer gives the integer. */
  lemma {:induction false} IntToDecimalRoundTrip(n: int)
    ensures IsDecimal(IntToDecimal(n)) && DecimalValue(IntToDecimal(n)) == n
  {
    if n < 0 {
      NatToDecimalRoundTrip(-n);
      assert IntToDecimal(n)[1..] == NatToDecimal(-n);
    } else {
      NatToDecimalRoundTrip(n);
    }
  }

  // ---------------------------------------------------------------------
  // Lines

  /** Every line followed by a line feed. */
  function JoinLines(lines: seq<string>): string
  {
    if lines == [] then "" else lines[0] + "\n" + JoinLines(lines[1..])
  }

  lemma {:induction false} JoinLinesAppend(a: seq<string>, b: seq<string>)
    ensures JoinLines(a + b) == JoinLines(a) + JoinLines(b)
  {
    if a == [] {
      assert a + b == b;
    } else {
      assert (a + b)[0] == a[0];
      assert (a + b)[1..] == a[1..] + b;
      JoinLinesAppend(a[1..], b);
    }
  }

  /** One line joined. */
  lemma JoinOneLine(l0: string)
    ensures JoinLines([l0]) == l0 + "\n"
  {
  }

  /** Two lines joined. */
  lemma JoinTwoLines(l0: string, l1: string)
    ensures JoinLines([l0, l1]) == l0 + "\n" + l1 + "\n"
  {
    assert [l0, l1][1..] == [l1];
    assert [l1][1..] == [];
    assert JoinLines([l1]) == l1 + "\n";
  }

  /** Three lines joined. */
  lemma JoinThreeLines(l0: string, l1: string, l2: string)
    ensures JoinLines([l0, l1, l2]) == l0 + "\n" + l1 + "\n" + l2 + "\n"
  {
    assert [l0, l1, l2][1..] == [l1, l2];
    JoinTwoLines(l1, l2);
  }

  predicate NoLineFeeds(lines: seq<string>)
  {
    forall i :: 0 <= i < |lines| ==> '\n' !in lines[i]
  }

  function CountLineFeeds(s: string): nat
  {
    if s == [] then 0 else (if s[0] == '\n' then 1 else 0) + CountLineFeeds(s[1..])
  }

  lemma {:induction false} CountLineFeedsAppend(a: string, b: string)
    ensures CountLineFeeds(a + b) == CountLineFeeds(a) + CountLineFeeds(b)
  {
    if a == [] {
      assert a + b == b;
    } else {
      assert (a + b)[0] == a[0];
      assert (a + b)[1..] == a[1..] + b;
      CountLineFeedsAppend(a[1..], b);
    }
  }

  lemma {:induction false} CountLineFeedsNone(s: string)
    requires '\n' !in s
    ensures CountLineFeeds(s) == 0
  {
    if s != [] {
      assert s[0] != '\n';
      CountLineFeedsNone(s[1..]);
    }
  }

  /** Joined lines that hold no line feed of their own contain one line feed per line. */
  lemma {:induction false} JoinLinesLineFeeds(lines: seq<string>)
    requires NoLineFeeds(lines)
    ensures CountLineFeeds(JoinLines(lines)) == |lines|
    ensures lines != [] ==> JoinLines(lines)[|JoinLines(lines)| - 1] == '\n'
  {
    if lines != [] {
      JoinLinesLineFeeds(lines[1..]);
      CountLineFeedsAppend(lines[0] + "\n", JoinLines(lines[1..]));
      CountLineFeedsAppend(lines[0], "\n");
      CountLineFeedsNone(lines[0]);
    }
  }

  /** Length of the first line of `s`, that is the index of its first line feed, or |s|. */
  function LineEnd(s: string): (k: nat)
    ensures k <= |s|
    ensures forall j :: 0 <= j < k ==> s[j] != '\n'
    ensures k < |s| ==> s[k] == '\n'
  {
    if s == [] || s[0] == '\n' then 0 else 1 + LineEnd(s[1..])
  }

  /** Cuts text into lines at every line feed; an unterminated tail is a last line. */
  function SplitLines(s: string): seq<string>
    decreases |s|
  {
    if s == [] then []
    else
      var k := LineEnd(s);
      if k == |s| then [s] else [s[..k]] + SplitLines(s[k + 1..])
  }

  lemma {:induction false} LineEndOfLine(line: string, rest: string)
    requires '\n' !in line
    ensures LineEnd(line + "\n" + rest) == |line|
  {
    if line != [] {
      assert (line + "\n" + rest)[1..] == line[1..] + "\n" + rest;
      LineEndOfLine(line[1..], rest);
    }
  }

  /** Splitting joined lines gives the lines back. */
  lemma {:induction false} SplitJoinLines(lines: seq<string>)
    requires NoLineFeeds(lines)
    ensures SplitLines(JoinLines(lines)) == lines
  {
    if lines != [] {
      var s := JoinLines(lines);
      var rest := JoinLines(lines[1..]);
      assert '\n' !in lines[0];
      LineEndOfLine(lines[0], rest);
      assert s[..|lines[0]|] == lines[0];
      assert s[|lines[0]| + 1..] == rest;
      SplitJoinLines(lines[1..]);
    }
  }

  // ---------------------------------------------------------------------
  // Text form of a topology

  /** The value a topology denotes: input count, hidden counts by layer, output count. */
  datatype Shape = Shape(inputs: int, hidden: seq<int>, outputs: int)

  function DecimalLines(counts: seq<int>): (lines: seq<string>)
    ensures |lines| == |counts|
  {
    seq(|counts|, i requires 0 <= i < |counts| => IntToDecimal(counts[i]))
  }

  /** The first three lines: "input", the input count and "hidden " with the layer count. */
  function HeaderLines(inputs: int, layers: int): seq<string>
  {
    ["input", IntToDecimal(inputs), "hidden " + IntToDecimal(layers)]
  }

  /** The lines of the text form: a header line then a count line for each layer. */
  function TopologyLines(inputs: int, hidden: seq<int>, outputs: int): seq<string>
  {
    HeaderLines(inputs, |hidden|)
      + DecimalLines(hidden)
      + ["output", IntToDecimal(outputs)]
  }

  function Serialise(inputs: int, hidden: seq<int>, outputs: int): string
  {
    JoinLines(TopologyLines(inputs, hidden, outputs))
  }

  /** Every line of the text form is a single line. */
  lemma TopologyLinesHaveNoLineFeeds(inputs: int, hidden: seq<int>, outputs: int)
    ensures NoLineFeeds(TopologyLines(inputs, hidden, outputs))
  {
  }

  /**
   * The text form spelled out: "input", the input count, "hidden " with the
   * number of hidden layers, each hidden count in layer order, "output" and
   * the output count, each followed by a line feed.
   */
  lemma SerialiseLayout(inputs: int, hidden: seq<int>, outputs: int)
    ensures Serialise(inputs, hidden, outputs) ==
              "input\n" + IntToDecimal(inputs) + "\n"
              + "hidden " + IntToDecimal(|hidden|) + "\n"
              + JoinLines(DecimalLines(hidden))
              + "output\n" + IntToDecimal(outputs) + "\n"
  {
    var head := ["input", IntToDecimal(inputs), "hidden " + IntToDecimal(|hidden|)];
    var tail := ["output", IntToDecimal(outputs)];
    JoinLinesAppend(head + DecimalLines(hidden), tail);
    JoinLinesAppend(head, DecimalLines(hidden));
    JoinThreeLines("input", IntToDecimal(inputs), "hidden " + IntToDecimal(|hidden|));
    JoinTwoLines("output", IntToDecimal(outputs));
  }

  /** The text form has one line feed per line, hidden layers plus five, and ends with one. */
  lemma SerialiseLineFeeds(inputs: int, hidden: seq<int>, outputs: int)
    ensures CountLineFeeds(Serialise(inputs, hidden, outputs)) == |hidden| + 5
    ensures var s := Serialise(inputs, hidden, outputs); |s| > 0 && s[|s| - 1] == '\n'
  {
    TopologyLinesHaveNoLineFeeds(inputs, hidden, outputs);
    JoinLinesLineFeeds(TopologyLines(inputs, hidden, outputs));
  }

  /** Reads the text form back; None when the text is not in that form. */
  function ReadTopology(text: string): Option<Shape>
  {
    ReadTopologyLines(SplitLines(text))
  }

  /** Reads the lines of the text form back; None when they are not in that form. */
  function ReadTopologyLines(lines: seq<string>): Option<Shape>
  {
    if |lines| < 5 || lines[0] != "input" || !IsDecimal(lines[1])
       || |lines[2]| < 7 || lines[2][..7] != "hidden " || !IsDecimal(lines[2][7..]) then
      None
    else
      var n := DecimalValue(lines[2][7..]);
      if n < 0 || |lines| != n + 5 || lines[n + 3] != "output" || !IsDecimal(lines[n + 4])
         || !AllDecimal(lines[3..n + 3]) then
        None
      else
        Some(Shape(DecimalValue(lines[1]), ReadCounts(lines[3..n + 3]), DecimalValue(lines[n + 4])))
  }

  /** The lines of the text form, one by one. */
  lemma TopologyLinesAt(inputs: int, hidden: seq<int>, outputs: int)
    ensures var lines := TopologyLines(inputs, hidden, outputs);
            && |lines| == |hidden| + 5
            && lines[0] == "input"
            && lines[1] == IntToDecimal(inputs)
            && lines[2] == "hidden " + IntToDecimal(|hidden|)
            && (forall j :: 0 <= j < |hidden| ==> lines[j + 3] == IntToDecimal(hidden[j]))
            && lines[|hidden| + 3] == "output"
            && lines[|hidden| + 4] == IntToDecimal(outputs)
  {
  }

  predicate AllDecimal(lines: seq<string>)
  {
    forall i :: 0 <= i < |lines| ==> IsDecimal(lines[i])
  }

  /** The value of each count line, in order. */
  function ReadCounts(lines: seq<string>): seq<int>
    requires AllDecimal(lines)
  {
    seq(|lines|, i requires 0 <= i < |lines| => DecimalValue(lines[i]))
  }

  /** Reading the count lines back gives the counts they were written from. */
  lemma ReadCountsInverse(counts: seq<int>)
    ensures AllDecimal(DecimalLines(counts)) && ReadCounts(DecimalLines(counts)) == counts
  {
    forall i | 0 <= i < |counts|
      ensures IsDecimal(DecimalLines(counts)[i]) && DecimalValue(DecimalLines(counts)[i]) == counts[i]
    {
      IntToDecimalRoundTrip(counts[i]);
    }
  }

  /** The third line reads back as the number of hidden layers. */
  lemma HiddenHeaderReadBack(n: nat)
    ensures var line := "hidden " + IntToDecimal(n);
            |line| >= 7 && line[..7] == "hidden " && line[7..] == IntToDecimal(n)
            && IsDecimal(line[7..]) && DecimalValue(line[7..]) == n
  {
    IntToDecimalRoundTrip(n);
  }

  lemma ReadTopologyLinesInverse(inputs: int, hidden: seq<int>, outputs: int)
    ensures ReadTopologyLines(TopologyLines(inputs, hidden, outputs)) == Some(Shape(inputs, hidden, outputs))
  {
    var lines := TopologyLines(inputs, hidden, outputs);
    TopologyLinesAt(inputs, hidden, outputs);
    IntToDecimalRoundTrip(inputs);
    IntToDecimalRoundTrip(outputs);
    HiddenHeaderReadBack(|hidden|);
    assert lines[3..|hidden| + 3] == DecimalLines(hidden);
    ReadCountsInverse(hidden);
  }

  /** The text form loses nothing: reading it back gives the topology it was written from. */
  lemma SerialiseRoundTrip(inputs: int, hidden: seq<int>, outputs: int)
    ensures ReadTopology(Serialise(inputs, hidden, outputs)) == Some(Shape(inputs, hidden, outputs))
  {
    TopologyLinesHaveNoLineFeeds(inputs, hidden, outputs);
    SplitJoinLines(TopologyLines(inputs, hidden, outputs));
    ReadTopologyLinesInverse(inputs, hidden, outputs);
  }

  // ---------------------------------------------------------------------
  // Steps of the line-by-line construction

  lemma HeaderText(inputs: int, layers: int)
    ensures JoinLines(HeaderLines(inputs, layers) + DecimalLines([]))
            == "input\n" + IntToDecimal(inputs) + "\n" + "hidden " + IntToDecimal(layers) + "\n"
  {
    assert HeaderLines(inputs, layers) + DecimalLines([]) == HeaderLines(inputs, layers);
    JoinThreeLines("input", IntToDecimal(inputs), "hidden " + IntToDecimal(layers));
  }

  /** Appending the line of hidden count `i` extends the text by that line. */
  lemma HiddenLineAppended(head: seq<string>, hidden: seq<int>, i: nat)
    requires i < |hidden|
    ensures JoinLines(head + DecimalLines(hidden[..i + 1]))
            == JoinLines(head + DecimalLines(hidden[..i])) + IntToDecimal(hidden[i]) + "\n"
  {
    var line := IntToDecimal(hidden[i]);
    assert DecimalLines(hidden[..i + 1]) == DecimalLines(hidden[..i]) + [line];
    assert head + DecimalLines(hidden[..i + 1]) == (head + DecimalLines(hidden[..i])) + [line];
    JoinLinesAppend(head + DecimalLines(hidden[..i]), [line]);
    JoinOneLine(line);
  }

  /** The text form is the header and hidden lines followed by the two output lines. */
  lemma SerialiseAfterHiddenLines(inputs: int, hidden: seq<int>, outputs: int)
    ensures Serialise(inputs, hidden, outputs)
            == JoinLines(HeaderLines(inputs, |hidden|) + DecimalLines(hidden[..|hidden|]))
               + "output\n" + IntToDecimal(outputs) + "\n"
  {
    assert hidden[..|hidden|] == hidden;
    var tail := ["output", IntToDecimal(outputs)];
    JoinLinesAppend(HeaderLines(inputs, |hidden|) + DecimalLines(hidden), tail);
    JoinTwoLines("output", IntToDecimal(outputs));
  }

  // ---------------------------------------------------------------------
  // The topology object

  class NetworkTopology {
    var inputSignals: int
    var outputSignals: int
    var hiddenLayers: int
    /** Shared with the caller that supplied it, as the constructor stores the reference. */
    var hiddenNeurons: array<int>

    ghost predicate Valid()
      reads this
    {
      hiddenNeurons.Length == hiddenLayers
    }

    /** The topology this object currently describes. */
    ghost function Denotation(): Shape
      reads this, hiddenNeurons
    {
      Shape(inputSignals, hiddenNeurons[..], outputSignals)
    }

    /** Stores the four arguments; the length check is made by Create, the only caller. */
    constructor (inputs: int, outputs: int, hiddenLayerCount: int, hiddenNeuronCounts: array<int>)
      requires hiddenNeuronCounts.Length == hiddenLayerCount
      ensures Valid()
      ensures inputSignals == inputs && outputSignals == outputs
      ensures hiddenLayers == hiddenLayerCount && hiddenNeurons == hiddenNeuronCounts
    {
      inputSignals := inputs;
      outputSignals := outputs;
      hiddenLayers := hiddenLayerCount;
      hiddenNeurons := hiddenNeuronCounts;
    }

    function InputNeuronCount(): (n: int)
      reads this, hiddenNeurons
      ensures n == Denotation().inputs
    {
      inputSignals
    }

    function HiddenLayerCount(): (n: int)
      reads this, hiddenNeurons
      ensures Valid() ==> n == |Denotation().hidden|
    {
      hiddenLayers
    }

    function HiddenNeuronCount(layerID: int): (n: int)
      reads this, hiddenNeurons
      requires 0 <= layerID < hiddenNeurons.Length
      ensures n == Denotation().hidden[layerID]
    {
      hiddenNeurons[layerID]
    }

    function OutputNeuronCount(): (n: int)
      reads this, hiddenNeurons
      ensures n == Denotation().outputs
    {
      outputSignals
    }

    /**
     * The text form, built line by line; it reads the fields and changes
     * nothing.
     */
    method ToString() returns (s: string)
      requires Valid()
      ensures s == Serialise(inputSignals, hiddenNeurons[..], outputSignals)
      ensures ReadTopology(s) == Some(Denotation())
    {
      ghost var head := HeaderLines(inputSignals, hiddenLayers);
      var result := "input\n";
      result := result + IntToDecimal(InputNeuronCount()) + "\n";
      result := result + "hidden " + IntToDecimal(hiddenLayers) + "\n";
      HeaderText(inputSignals, hiddenLayers);
      for i := 0 to hiddenLayers
        invariant result == JoinLines(head + DecimalLines(hiddenNeurons[..i]))
      {
        HiddenLineAppended(head, hiddenNeurons[..], i);
        result := result + IntToDecimal(HiddenNeuronCount(i)) + "\n";
      }
      result := result + "output\n";
      result := result + IntToDecimal(OutputNeuronCount()) + "\n";
      s := result;
      SerialiseAfterHiddenLines(inputSignals, hiddenNeurons[..], outputSignals);
      SerialiseRoundTrip(inputSignals, hiddenNeurons[..], outputSignals);
    }
  }

  /**
   * Construction of a topology: fails with an argument error when the
   * number of hidden counts differs from the number of hidden layers, and
   * otherwise stores the arguments, sharing the hidden counts array.
   */
  method Create(inputs: int, outputs: int, hiddenLayerCount: int, hiddenNeuronCounts: array<int>)
    returns (r: Result<NetworkTopology>)
    ensures r.Failure? <==> hiddenNeuronCounts.Length != hiddenLayerCount
    ensures r.Failure? ==> r.error == LayerMismatchMessage
    ensures r.Success? ==>
              && fresh(r.value)
              && r.value.Valid()
              && r.value.InputNeuronCount() == inputs
              && r.value.OutputNeuronCount() == outputs
              && r.value.HiddenLayerCount() == hiddenLayerCount
              && r.value.hiddenNeurons == hiddenNeuronCounts
              && (forall i :: 0 <= i < hiddenLayerCount ==> r.value.HiddenNeuronCount(i) == hiddenNeuronCounts[i])
  {
    if hiddenNeuronCounts.Length != hiddenLayerCount {
      return Failure(LayerMismatchMessage);
    }
    var t := new NetworkTopology(inputs, outputs, hiddenLayerCount, hiddenNeuronCounts);
    r := Success(t);
  }
}
