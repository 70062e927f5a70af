/** Miner configuration and what it determines about a line: its tokens and the leaf it descends to
    (crates/logdrain/src/options.rs, crates/logdrain/src/miner.rs:90-101). */
module Options {
  import opened Wrappers
  import opened Tokenizer

  /** `mask` stands for the pre-tokenization masks: any pure function on the line. */
  datatype Options = Options(
    simThreshold: real,
    depth: nat,
    maxClustersPerLeaf: nat,
    parametrizeNumeric: bool,
    wildcard: string,
    pathDelimiters: Delims,
    firstLinePathDelimiters: Delims,
    firstLineOnly: bool,
    mask: string -> string)
  {
    /** What `build_options` accepts. */
    predicate Valid() {
      depth >= 2 && 0.0 <= simThreshold <= 1.0 && maxClustersPerLeaf >= 1
    }

    function PrefixLen(): nat
      requires Valid()
    {
      depth - 2
    }

    function ActiveDelimiters(): Delims {
      if firstLineOnly && firstLinePathDelimiters != [] then firstLinePathDelimiters else pathDelimiters
    }
  }

  /** A leaf of the index: the shard (token count) and the path of keys below its root. */
  datatype LeafKey = LeafKey(count: nat, path: seq<string>)

  function Min(a: nat, b: nat): nat {
    if a <= b then a else b
  }

  function DescentKey(o: Options, text: string): string {
    if o.parametrizeNumeric && IsNumeric(text) then o.wildcard else text
  }

  function DescentKeys(o: Options, ts: seq<Token>): (keys: seq<string>)
    requires o.Valid()
    ensures |keys| == Min(o.PrefixLen(), |ts|)
  {
    seq(Min(o.PrefixLen(), |ts|), i requires 0 <= i < |ts| => DescentKey(o, ts[i].text))
  }

  function KeyOf(o: Options, ts: seq<Token>): LeafKey
    requires o.Valid()
  {
    LeafKey(|ts|, DescentKeys(o, ts))
  }

  ghost predicate Digits(text: string) {
    text != [] && forall j | 0 <= j < |text| :: '0' <= text[j] <= '9'
  }

  /** Texts whose key is the wildcard. */
  ghost predicate ReadsAsWildcard(o: Options, text: string) {
    text == o.wildcard || (o.parametrizeNumeric && Digits(text))
  }

  /** Two lines share a leaf exactly when they have equally many tokens and, in the first `depth - 2` of them, the
      texts are equal or both read as the wildcard. */
  lemma LeafIsShared(o: Options, a: seq<Token>, b: seq<Token>)
    requires o.Valid()
    ensures KeyOf(o, a) == KeyOf(o, b)
       <==> && |a| == |b|
            && forall i | 0 <= i < |a| && i < o.depth - 2 ::
                 a[i].text == b[i].text || (ReadsAsWildcard(o, a[i].text) && ReadsAsWildcard(o, b[i].text))
  {
    KeyOfText(o, a);
    KeyOfText(o, b);
    hide DescentKey, ReadsAsWildcard;
    var ka, kb := DescentKeys(o, a), DescentKeys(o, b);
    if |a| == |b| {
      assert ka == kb <==> forall i | 0 <= i < |ka| :: ka[i] == kb[i];
    }
  }

  lemma KeyOfText(o: Options, ts: seq<Token>)
    requires o.Valid()
    ensures forall i | 0 <= i < |DescentKeys(o, ts)| ::
              DescentKeys(o, ts)[i] == if ReadsAsWildcard(o, ts[i].text) then o.wildcard else ts[i].text
    ensures forall i | 0 <= i < |ts| :: ts[i].text == o.wildcard ==> ReadsAsWildcard(o, ts[i].text)
  {
    forall i | 0 <= i < |DescentKeys(o, ts)|
      ensures DescentKeys(o, ts)[i] == if ReadsAsWildcard(o, ts[i].text) then o.wildcard else ts[i].text
    {
      NumericIsDigits(ts[i].text);
    }
  }

  lemma NumericIsDigits(text: string)
    ensures IsNumeric(text) <==> Digits(text)
  {
    assert forall j | 0 <= j < |text| :: IsDigit(text[j]) <==> '0' <= text[j] <= '9';
  }

  /** The part of a masked line that is tokenized, and the suffix kept in first-line mode. */
  function SplitRecord(o: Options, line: string): (string, Option<string>) {
    var masked := o.mask(line);
    if o.firstLineOnly then SplitFirstLine(masked) else (masked, None)
  }

  function TokensOf(o: Options, line: string): seq<Token> {
    Tokenize(SplitRecord(o, line).0, o.ActiveDelimiters())
  }
}
