/**
 * The client's product helpers (client/src/utils/productHelpers.ts):
 * the rounded discount percentage, and the parsing of a product description
 * of the form "Specifications: a, b | Features: c, d" into its two lists.
 */
module ProductHelpers {
  import opened Text

  /**
   * `Math.round((originalPrice - discountedPrice) / originalPrice * 100)`:
   * the whole number nearest to the percentage taken off, halves rounded up.
   */
  function CalculateDiscountPercentage(originalPrice: int, discountedPrice: int): (r: int)
    requires originalPrice > 0
    ensures 2 * originalPrice * r <= 200 * (originalPrice - discountedPrice) + originalPrice < 2 * originalPrice * (r + 1)
  {
    (200 * (originalPrice - discountedPrice) + originalPrice) / (2 * originalPrice)
  }

  lemma MulLe(c: int, a: int, b: int)
    requires c > 0 && a <= b
    ensures c * a <= c * b
  {
  }

  /** At most one whole number r has m * r <= n < m * (r + 1). */
  lemma RoundingUnique(m: int, n: int, r: int, s: int)
    requires m > 0
    requires m * r <= n < m * (r + 1)
    requires m * s <= n < m * (s + 1)
    ensures r == s
  {
    if r < s {
      MulLe(m, r + 1, s);
    } else if s < r {
      MulLe(m, s + 1, r);
    }
  }

  /** No reduction is 0 percent, a free product is 100 percent. */
  lemma DiscountPercentageEnds(price: int)
    requires price > 0
    ensures CalculateDiscountPercentage(price, price) == 0
    ensures CalculateDiscountPercentage(price, 0) == 100
  {
    RoundingUnique(2 * price, price, CalculateDiscountPercentage(price, price), 0);
    RoundingUnique(2 * price, 201 * price, CalculateDiscountPercentage(price, 0), 100);
  }

  /** For a fixed price, a lower discounted price never gives a smaller percentage. */
  lemma DiscountPercentageAntitone(price: int, d1: int, d2: int)
    requires price > 0 && d1 <= d2
    ensures CalculateDiscountPercentage(price, d2) <= CalculateDiscountPercentage(price, d1)
  {
    var r1 := CalculateDiscountPercentage(price, d1);
    var r2 := CalculateDiscountPercentage(price, d2);
    var m := 2 * price;
    assert m * r2 <= 200 * (price - d2) + price <= 200 * (price - d1) + price < m * (r1 + 1);
    if r2 > r1 {
      MulLe(m, r1 + 1, r2);
    }
  }

  /** A discounted price between 0 and the price gives a percentage between 0 and 100. */
  lemma DiscountPercentageRange(price: int, discounted: int)
    requires 0 <= discounted <= price
    requires price > 0
    ensures 0 <= CalculateDiscountPercentage(price, discounted) <= 100
  {
    DiscountPercentageEnds(price);
    DiscountPercentageAntitone(price, discounted, price);
    DiscountPercentageAntitone(price, 0, discounted);
  }

  // ---- description parsing ---------------------------------------------------

  const PartSeparator: string := " | "
  const ListSeparator: string := ", "
  const SpecificationsLabel: string := "Specifications: "
  const FeaturesLabel: string := "Features: "

  datatype ParsedDescription = ParsedDescription(specifications: seq<string>, features: seq<string>)

  /**
   * `parseDescription`: split on " | "; the specifications come from the first
   * part and the features from the second, each with its label removed (first
   * occurrence, wherever it is) and split on ", ". Without a second part the
   * features are `[]` (the `|| []` fallback); later parts are ignored.
   */
  function ParseDescription(description: string): ParsedDescription {
    var parts := Split(description, PartSeparator);
    var specifications := Split(ReplaceFirst(parts[0], SpecificationsLabel, ""), ListSeparator);
    var features := if |parts| >= 2 then Split(ReplaceFirst(parts[1], FeaturesLabel, ""), ListSeparator) else [];
    ParsedDescription(specifications, features)
  }

  /** The first part of the description: everything before the first " | ". */
  function FirstPart(description: string): string {
    var i := IndexOf(description, PartSeparator);
    if i == -1 then description else description[..i]
  }

  /**
   * The specifications are never an empty list (at worst `[""]`), hold no
   * ", ", and joined with ", " give back the first part with its label removed.
   */
  lemma SpecificationsSpec(description: string)
    ensures |ParseDescription(description).specifications| >= 1
    ensures Join(ParseDescription(description).specifications, ListSeparator) == ReplaceFirst(FirstPart(description), SpecificationsLabel, "")
    ensures forall k :: 0 <= k < |ParseDescription(description).specifications| ==>
      IndexOf(ParseDescription(description).specifications[k], ListSeparator) == -1
  {
    var first := ReplaceFirst(FirstPart(description), SpecificationsLabel, "");
    assert Split(description, PartSeparator)[0] == FirstPart(description);
    JoinSplit(first, ListSeparator);
    SplitPiecesFree(first, ListSeparator);
  }

  /** Without " | " there are no features, and the whole description holds the specifications. */
  lemma NoSeparatorNoFeatures(description: string)
    requires IndexOf(description, PartSeparator) == -1
    ensures ParseDescription(description).features == []
    ensures FirstPart(description) == description
  {
  }

  /** Three consecutive slices of a string make up the prefix they cover. */
  lemma SliceJoin(s: string, i: int, j: int, n: int)
    requires 0 <= i <= j <= n <= |s|
    ensures s[..n] == s[..i] + s[i..j] + s[j..n]
  {
  }

  /** The second part starts right after the first occurrence of the separator. */
  lemma SecondPartPlace(description: string, sep: string)
    requires |sep| > 0 && |Split(description, sep)| >= 2
    ensures var parts := Split(description, sep);
      var start := |parts[0]| + |sep|;
      && start + |parts[1]| <= |description|
      && parts[1] == description[start..start + |parts[1]|]
  {
    var parts := Split(description, sep);
    var start := |parts[0]| + |sep|;
    SecondPieceFromRest(description, sep);
    FirstPiecePrefix(description[start..], sep);
    SuffixPrefix(description, start, |parts[1]|);
  }

  /** The second piece is the first piece of what follows the first separator. */
  lemma SecondPieceFromRest(s: string, sep: string)
    requires |sep| > 0 && |Split(s, sep)| >= 2
    ensures |Split(s, sep)[0]| + |sep| <= |s|
    ensures Split(s, sep)[1] == Split(s[|Split(s, sep)[0]| + |sep|..], sep)[0]
  {
    SplitHead(s, sep);
  }

  /** The first piece is a prefix. */
  lemma FirstPiecePrefix(s: string, sep: string)
    requires |sep| > 0
    ensures |Split(s, sep)[0]| <= |s| && Split(s, sep)[0] == s[..|Split(s, sep)[0]|]
  {
    SplitHead(s, sep);
  }

  /** A prefix of a suffix is a slice. */
  lemma SuffixPrefix(s: string, a: nat, m: nat)
    requires a + m <= |s|
    ensures s[a..][..m] == s[a..a + m]
  {
  }

  /** The first two parts with the separator between them are a prefix of the string. */
  lemma FirstTwoPartsPrefix(description: string, sep: string)
    requires |sep| > 0 && |Split(description, sep)| >= 2
    ensures var parts := Split(description, sep);
      var n := |parts[0]| + |sep| + |parts[1]|;
      && n <= |description|
      && parts[0] + sep + parts[1] == description[..n]
      && IndexOf(description, sep) == |parts[0]|
  {
    var parts := Split(description, sep);
    FirstSeparatorAt(description, sep);
    SecondPartPlace(description, sep);
    var i := |parts[0]|;
    SliceJoin(description, i, i + |sep|, i + |sep| + |parts[1]|);
  }

  /** When there are two parts, the first separator sits right after the first part. */
  lemma FirstSeparatorAt(s: string, sep: string)
    requires |sep| > 0 && |Split(s, sep)| >= 2
    ensures IndexOf(s, sep) == |Split(s, sep)[0]|
    ensures |Split(s, sep)[0]| + |sep| <= |s| && s[|Split(s, sep)[0]|..|Split(s, sep)[0]| + |sep|] == sep
  {
    SplitHead(s, sep);
    IndexOfSpec(s, sep);
  }

  /** Cutting a string at the end of its second part gives exactly its first two parts. */
  lemma SplitFirstTwo(description: string, sep: string)
    requires |sep| > 0 && |Split(description, sep)| >= 2
    ensures var parts := Split(description, sep);
      Split(parts[0] + sep + parts[1], sep) == [parts[0], parts[1]]
  {
    var parts := Split(description, sep);
    FirstTwoPartsPrefix(description, sep);
    var i := |parts[0]|;
    var p1 := parts[1];
    var n := i + |sep| + |p1|;
    var prefix := parts[0] + sep + p1;
    IndexOfInPrefix(description, sep, n);
    SplitPiecesFree(description, sep);
    assert IndexOf(p1, sep) == -1;
    assert prefix[..i] == parts[0];
    assert prefix[i + |sep|..] == p1;
    SplitAt(prefix, sep, i);
    SplitWithoutSeparator(p1, sep);
  }

  /** Only the first two parts matter: parts after the second " | " are ignored. */
  lemma LaterPartsIgnored(description: string)
    requires |Split(description, PartSeparator)| >= 2
    ensures var parts := Split(description, PartSeparator);
      ParseDescription(description) == ParseDescription(parts[0] + PartSeparator + parts[1])
  {
    SplitFirstTwo(description, PartSeparator);
  }
}
