/** The keyword classifier of the triage pipeline (`classifyTicket`): counts,
    per category, how many of its trigger words occur in the lower-cased ticket
    text; the first category with the highest non-zero count wins, and the
    confidence grows by 0.15 per matched word from 0.3, capped at 0.9. */
module Classifier {
  import opened Seqs
  import opened Text
  import opened Records

  const BillingWords: seq<string> := ["refund", "invoice", "payment", "charge", "bill", "money", "cost", "price"]
  const TechWords: seq<string> := ["error", "bug", "crash", "not working", "broken", "login", "password", "500", "technical"]
  const ShippingWords: seq<string> := ["delivery", "package", "tracking", "shipping", "shipment", "arrived", "delayed"]

  /** The categories in the order the classifier visits them. */
  const Order: seq<Category> := [Billing, Tech, Shipping]

  /** The trigger words of a category; `other` is the fallback and has none. */
  function Keywords(c: Category): seq<string>
  {
    match c
    case Billing => BillingWords
    case Tech => TechWords
    case Shipping => ShippingWords
    case Other => []
  }

  /** Position of a category in `Order`; `other` comes after all of them. */
  function Rank(c: Category): nat
  {
    match c
    case Billing => 0
    case Tech => 1
    case Shipping => 2
    case Other => 3
  }

  /** `${title} ${description}`.toLowerCase(): the text both the classifier and
      the retriever read. */
  function TicketText(t: Ticket): string
  {
    ToLower(t.title + " " + t.description)
  }

  /** `words.filter(word => text.includes(word)).length`: how many of the words
      occur in the text. */
  function CountOccurring(text: string, words: seq<string>): nat
  {
    if words == [] then 0
    else (if Contains(text, words[0]) then 1 else 0) + CountOccurring(text, words[1..])
  }

  /** The count is zero exactly when none of the words occurs, and never
      exceeds the number of words. */
  lemma {:induction false} CountOccurringZero(text: string, words: seq<string>)
    ensures CountOccurring(text, words) <= |words|
    ensures CountOccurring(text, words) == 0 <==> forall w :: w in words ==> !Contains(text, w)
  {
    if words != [] {
      CountOccurringZero(text, words[1..]);
      assert words == [words[0]] + words[1..];
      assert words[0] in words;
    }
  }

  /** The count of a category's trigger words found in the text. */
  function KeywordScore(text: string, c: Category): nat
  {
    CountOccurring(text, Keywords(c))
  }

  function Max(a: nat, b: nat): nat
  {
    if a < b then b else a
  }

  /** The highest keyword count over the three categories. */
  function MaxScore(text: string): nat
  {
    Max(Max(KeywordScore(text, Billing), KeywordScore(text, Tech)), KeywordScore(text, Shipping))
  }

  /** The category chosen from the billing, tech and shipping counts: the first
      one holding the maximum, or `other` when every count is zero. */
  function Winner(b: nat, t: nat, s: nat): Category
  {
    var m := Max(Max(b, t), s);
    if m == 0 then Other
    else if b == m then Billing
    else if t == m then Tech
    else Shipping
  }

  /** The confidence formula `Math.min(0.3 + maxScore * 0.15, 0.9)`. */
  function Confidence(maxScore: nat): real
  {
    MinReal(0.3 + maxScore as real * 0.15, 0.9)
  }

  /** Reference definition of the classification: the first of billing, tech,
      shipping whose count is the maximum, or `other` when nothing matched. */
  function Classify(text: string): Classification
  {
    Classification(
      Winner(KeywordScore(text, Billing), KeywordScore(text, Tech), KeywordScore(text, Shipping)),
      Confidence(MaxScore(text)))
  }

  /** What the classifier's loop keeps after visiting the first `i` counts of
      `sc`: the largest count so far, and the category first reaching it. */
  ghost predicate BestSoFar(sc: seq<nat>, i: nat, maxScore: nat, category: Category)
    requires i <= |sc| == 3
  {
    (category == Other <==> maxScore == 0) &&
    (category != Other ==> Rank(category) < i && sc[Rank(category)] == maxScore) &&
    (forall j :: 0 <= j < i ==> sc[j] <= maxScore) &&
    (forall j :: 0 <= j < i && sc[j] == maxScore && maxScore > 0 ==> Rank(category) <= j)
  }

  /** After all three counts, the loop's state is the reference classification. */
  lemma BestSoFarComplete(sc: seq<nat>, maxScore: nat, category: Category)
    requires |sc| == 3 && BestSoFar(sc, 3, maxScore, category)
    ensures maxScore == Max(Max(sc[0], sc[1]), sc[2])
    ensures category == Winner(sc[0], sc[1], sc[2])
  {
  }

  /** `classifyTicket`: one pass over the categories keeping the strictly larger
      count, so an earlier category keeps its place on a tie. */
  method ClassifyTicket(ticket: Ticket) returns (r: Classification)
    ensures r == Classify(TicketText(ticket))
  {
    var text := TicketText(ticket);
    ghost var sc: seq<nat> := [KeywordScore(text, Billing), KeywordScore(text, Tech), KeywordScore(text, Shipping)];
    var maxScore := 0;
    var category := Other;
    var i := 0;
    while i < |Order|
      invariant 0 <= i <= |Order|
      invariant BestSoFar(sc, i, maxScore, category)
    {
      var cat := Order[i];
      assert Rank(cat) == i && sc[i] == KeywordScore(text, cat);
      var score := KeywordScore(text, cat);
      if score > maxScore {
        maxScore := score;
        category := cat;
      }
      i := i + 1;
    }
    BestSoFarComplete(sc, maxScore, category);
    r := Classification(category, Confidence(maxScore));
  }

  /** The confidence formula stays within [0.3, 0.9] and is 0.3 only for a zero count. */
  lemma ConfidenceRange(m: nat)
    ensures 0.3 <= Confidence(m) <= 0.9
    ensures Confidence(m) == 0.3 <==> m == 0
  {
  }

  /** The confidence always lies in [0.3, 0.9]. */
  lemma ClassifyConfidenceBounds(text: string)
    ensures 0.3 <= Classify(text).confidence <= 0.9
  {
    ConfidenceRange(MaxScore(text));
  }

  /** The ticket is classified `other` exactly when no trigger word of billing,
      tech or shipping occurs in its text, and exactly then the confidence is 0.3. */
  lemma ClassifyOtherIff(text: string)
    ensures Classify(text).predictedCategory == Other <==>
            forall c, w :: c in Order && w in Keywords(c) ==> !Contains(text, w)
    ensures Classify(text).predictedCategory == Other <==> Classify(text).confidence == 0.3
  {
    assert forall c :: c in Order <==> c == Billing || c == Tech || c == Shipping;
    CountOccurringZero(text, Keywords(Billing));
    CountOccurringZero(text, Keywords(Tech));
    CountOccurringZero(text, Keywords(Shipping));
    ConfidenceRange(MaxScore(text));
  }

  /** The count of category `c` among the three counts `sc` (zero for `other`). */
  function CountFor(sc: seq<nat>, c: Category): nat
    requires |sc| == 3
  {
    if c == Other then 0 else sc[Rank(c)]
  }

  /** The winner holds the maximal count, and every category visited before it
      has a strictly smaller count: the first maximum wins. */
  lemma WinnerFirstMaximum(sc: seq<nat>)
    requires |sc| == 3
    ensures var c := Winner(sc[0], sc[1], sc[2]);
            c != Other ==>
              CountFor(sc, c) == Max(Max(sc[0], sc[1]), sc[2]) > 0 &&
              (forall j :: 0 <= j < 3 ==> sc[j] <= CountFor(sc, c)) &&
              (forall j :: 0 <= j < Rank(c) ==> sc[j] < CountFor(sc, c))
    ensures Winner(sc[0], sc[1], sc[2]) == Other <==> sc[0] == sc[1] == sc[2] == 0
  {
  }

  /** The classifier's category is the first maximum of the keyword counts. */
  lemma ClassifyFirstMaximum(text: string)
    ensures var sc := [KeywordScore(text, Billing), KeywordScore(text, Tech), KeywordScore(text, Shipping)];
            var c := Classify(text).predictedCategory;
            c != Other ==>
              CountFor(sc, c) == MaxScore(text) > 0 &&
              (forall j :: 0 <= j < 3 ==> sc[j] <= CountFor(sc, c)) &&
              (forall j :: 0 <= j < Rank(c) ==> sc[j] < CountFor(sc, c))
  {
    var sc := [KeywordScore(text, Billing), KeywordScore(text, Tech), KeywordScore(text, Shipping)];
    WinnerFirstMaximum(sc);
  }

  /** A ticket whose text mentions "refund" (the first billing word) and none
      of the other trigger words is billing with confidence 0.45. */
  lemma ClassifyRefundOnly(text: string)
    requires Contains(text, "refund")
    requires forall w :: w in BillingWords[1..] + TechWords + ShippingWords ==> !Contains(text, w)
    ensures Classify(text) == Classification(Billing, 0.45)
  {
    assert BillingWords[0] == "refund";
    var others := BillingWords[1..] + TechWords + ShippingWords;
    assert forall w :: w in BillingWords[1..] ==> w in others;
    assert forall w :: w in TechWords ==> w in others;
    assert forall w :: w in ShippingWords ==> w in others;
    CountOccurringZero(text, BillingWords[1..]);
    CountOccurringZero(text, TechWords);
    CountOccurringZero(text, ShippingWords);
  }
}
