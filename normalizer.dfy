/** The category normalizer of the extraction service (services/geminiService.ts). */
module Normalizer {
  import opened Types

  /** ASCII lower-casing of one character. */
  function LowerChar(c: char): char
  {
    if 'A' <= c <= 'Z' then (c as int + 32) as char else c
  }

  /** ASCII upper-casing of one character. */
  function UpperChar(c: char): char
  {
    if 'a' <= c <= 'z' then (c as int - 32) as char else c
  }

  /** `toLowerCase`, restricted to ASCII letters. */
  function Lower(s: string): (r: string)
    ensures |r| == |s|
    ensures forall i :: 0 <= i < |s| ==> r[i] == LowerChar(s[i])
  {
    if s == [] then [] else [LowerChar(s[0])] + Lower(s[1..])
  }

  /** `toUpperCase`, restricted to ASCII letters. */
  function Upper(s: string): (r: string)
    ensures |r| == |s|
    ensures forall i :: 0 <= i < |s| ==> r[i] == UpperChar(s[i])
  {
    if s == [] then [] else [UpperChar(s[0])] + Upper(s[1..])
  }

  predicate StartsWith(s: string, prefix: string)
  {
    |prefix| <= |s| && s[..|prefix|] == prefix
  }

  /** `String.prototype.includes`, scanning from the left. */
  predicate Contains(s: string, sub: string)
    decreases |s|
  {
    StartsWith(s, sub) || (|s| > 0 && Contains(s[1..], sub))
  }

  /** `sub` stands in `s` from index `i` on. */
  ghost predicate OccursAt(s: string, sub: string, i: int)
  {
    0 <= i && i + |sub| <= |s| && s[i..i + |sub|] == sub
  }

  /** `sub` is a substring of `s`, by the index definition. */
  ghost predicate Occurs(s: string, sub: string)
  {
    exists i :: OccursAt(s, sub, i)
  }

  /** A slice of `s` from index `i >= 1` is the slice of its tail one index earlier. */
  lemma SliceOfTail(s: string, i: int, n: nat)
    requires 1 <= i && i + n <= |s|
    ensures s[i..i + n] == s[1..][i - 1..i - 1 + n]
  {
    var here, there := s[i..i + n], s[1..][i - 1..i - 1 + n];
    forall j | 0 <= j < n
      ensures here[j] == there[j]
    {
      assert here[j] == s[i + j];
    }
  }

  lemma {:induction false} ContainsOccurs(s: string, sub: string)
    requires Contains(s, sub)
    ensures Occurs(s, sub)
    decreases |s|
  {
    if StartsWith(s, sub) {
      assert OccursAt(s, sub, 0);
    } else {
      ContainsOccurs(s[1..], sub);
      var i :| OccursAt(s[1..], sub, i);
      SliceOfTail(s, i + 1, |sub|);
      assert OccursAt(s, sub, i + 1);
    }
  }

  lemma {:induction false} OccursContains(s: string, sub: string)
    requires Occurs(s, sub)
    ensures Contains(s, sub)
    decreases |s|
  {
    var i :| OccursAt(s, sub, i);
    if i == 0 {
      assert StartsWith(s, sub);
    } else {
      SliceOfTail(s, i, |sub|);
      assert OccursAt(s[1..], sub, i - 1);
      OccursContains(s[1..], sub);
    }
  }

  /** The scanning search finds exactly the substrings. */
  lemma ContainsIffOccurs(s: string, sub: string)
    ensures Contains(s, sub) <==> Occurs(s, sub)
  {
    if Contains(s, sub) {
      ContainsOccurs(s, sub);
    }
    if Occurs(s, sub) {
      OccursContains(s, sub);
    }
  }

  /** `normalizeType`: lower-case the label, then test the keywords in
      priority order; the first that matches decides. */
  function Normalize(raw: string): TransactionType
  {
    var t := Lower(raw);
    if Contains(t, "collect") then Collection
    else if Contains(t, "charge") || Contains(t, "earn") then DeliveryCharge
    else if Contains(t, "pay") then Payment
    else Other
  }

  /** The classification policy, stated with the index definition of substring:
      one of the four categories, chosen by the first keyword group that occurs. */
  lemma NormalizeSpec(raw: string)
    ensures var t := Lower(raw);
      && (Normalize(raw) == Collection <==> Occurs(t, "collect"))
      && (Normalize(raw) == DeliveryCharge <==>
            !Occurs(t, "collect") && (Occurs(t, "charge") || Occurs(t, "earn")))
      && (Normalize(raw) == Payment <==>
            !Occurs(t, "collect") && !Occurs(t, "charge") && !Occurs(t, "earn") && Occurs(t, "pay"))
      && (Normalize(raw) == Other <==>
            !Occurs(t, "collect") && !Occurs(t, "charge") && !Occurs(t, "earn") && !Occurs(t, "pay"))
  {
    var t := Lower(raw);
    ContainsIffOccurs(t, "collect");
    ContainsIffOccurs(t, "charge");
    ContainsIffOccurs(t, "earn");
    ContainsIffOccurs(t, "pay");
  }

  /** Lower-casing twice is lower-casing once. */
  lemma LowerIdempotent(s: string)
    ensures Lower(Lower(s)) == Lower(s)
  {
    assert forall i :: 0 <= i < |s| ==> LowerChar(LowerChar(s[i])) == LowerChar(s[i]);
  }

  /** Lower-casing forgets an earlier upper-casing. */
  lemma LowerOfUpper(s: string)
    ensures Lower(Upper(s)) == Lower(s)
  {
    assert forall i :: 0 <= i < |s| ==> LowerChar(UpperChar(s[i])) == LowerChar(s[i]);
  }

  /** The category ignores letter case: a label, its lower-case and its
      upper-case forms are classified alike. */
  lemma NormalizeIgnoresCase(raw: string)
    ensures Normalize(Lower(raw)) == Normalize(raw)
    ensures Normalize(Upper(raw)) == Normalize(raw)
  {
    LowerIdempotent(raw);
    LowerOfUpper(raw);
  }

  /** From index `k` of `sub` on, `sub` matches `s` read from index `i`,
      ignoring the letter case of `s`. */
  predicate MatchesAt(s: string, sub: string, i: nat, k: nat)
    decreases |sub| - k
  {
    k >= |sub| || (i + k < |s| && LowerChar(s[i + k]) == sub[k] && MatchesAt(s, sub, i, k + 1))
  }

  lemma {:induction false} MatchesAtLetters(s: string, sub: string, i: nat, k: nat)
    requires MatchesAt(s, sub, i, k)
    ensures k < |sub| ==> i + |sub| <= |s|
    ensures forall j :: k <= j < |sub| ==> i + j < |s| && LowerChar(s[i + j]) == sub[j]
    decreases |sub| - k
  {
    if k < |sub| {
      MatchesAtLetters(s, sub, i, k + 1);
    }
  }

  /** A case-insensitive match at some index is found by the search on the lower-cased text. */
  lemma FoundIgnoringCase(s: string, sub: string, i: nat)
    requires MatchesAt(s, sub, i, 0)
    ensures Contains(Lower(s), sub)
  {
    var t := Lower(s);
    if sub == [] {
      assert StartsWith(t, sub);
    } else {
      MatchesAtLetters(s, sub, i, 0);
      assert t[i..i + |sub|] == sub;
      assert OccursAt(t, sub, i);
      ContainsIffOccurs(t, sub);
    }
  }

  /** A keyword with a letter that `s` lacks in both cases is not found. */
  lemma MissingLetter(s: string, sub: string, c: char)
    requires c in sub && c !in s && UpperChar(c) !in s
    ensures !Contains(Lower(s), sub)
  {
    var t := Lower(s);
    ContainsIffOccurs(t, sub);
  }

  // Facts about the longer literals, one per lemma: proved together in one
  // context, their literal unfoldings get in each other's way.
  lemma DeliveryChargeLacksCollect()
    ensures !Contains(Lower("Delivery Charge"), "collect")
  {
    MissingLetter("Delivery Charge", "collect", 'o');
  }

  lemma DeliveryChargeHasCharge()
    ensures Contains(Lower("Delivery Charge"), "charge")
  {
    FoundIgnoringCase("Delivery Charge", "charge", 9);
  }

  lemma EarningPaymentLacksCollect()
    ensures !Contains(Lower("Earning Payment"), "collect")
  {
    MissingLetter("Earning Payment", "collect", 'c');
  }

  lemma EarningPaymentHasEarn()
    ensures Contains(Lower("Earning Payment"), "earn")
  {
    FoundIgnoringCase("Earning Payment", "earn", 0);
  }

  lemma CollectionLabel()
    ensures Normalize("Collection") == Collection
  {
    FoundIgnoringCase("Collection", "collect", 0);
  }

  lemma DeliveryChargeLabel()
    ensures Normalize("Delivery Charge") == DeliveryCharge
  {
    DeliveryChargeLacksCollect();
    DeliveryChargeHasCharge();
  }

  lemma PaymentLabel()
    ensures Normalize("Payment") == Payment
  {
    MissingLetter("Payment", "collect", 'c');
    MissingLetter("Payment", "charge", 'c');
    MissingLetter("Payment", "earn", 'r');
    FoundIgnoringCase("Payment", "pay", 0);
  }

  lemma OtherLabel()
    ensures Normalize("Other") == Other
  {
    MissingLetter("Other", "collect", 'c');
    MissingLetter("Other", "charge", 'c');
    MissingLetter("Other", "earn", 'a');
    MissingLetter("Other", "pay", 'p');
  }

  /** Each category's own label normalizes back to that category. */
  lemma NormalizeLabel(k: TransactionType)
    ensures Normalize(Label(k)) == k
  {
    match k
    case Collection => CollectionLabel();
    case DeliveryCharge => DeliveryChargeLabel();
    case Payment => PaymentLabel();
    case Other => OtherLabel();
  }

  /** A label that names both a collection and a payment is a collection. */
  lemma CollectionPaymentIsCollection()
    ensures Normalize("Collection Payment") == Collection
  {
    FoundIgnoringCase("Collection Payment", "collect", 0);
  }

  /** "Earning Payment" has no "collect", so "earn" outranks "pay". */
  lemma EarningPaymentIsDeliveryCharge()
    ensures Normalize("Earning Payment") == DeliveryCharge
  {
    EarningPaymentLacksCollect();
    EarningPaymentHasEarn();
  }

  /** The empty label, like every label without a keyword, is Other. */
  lemma EmptyIsOther()
    ensures Normalize("") == Other
  {
    assert Lower("") == "";
  }

  /** One item from the extraction service, before normalization. */
  datatype Extracted = Extracted(date: string, rawType: string, id: string, amount: real)

  /** `{...item, type: normalizeType(item.type)}`. */
  function NormalizeItem(item: Extracted): Transaction
  {
    Transaction(item.date, Normalize(item.rawType), item.id, item.amount)
  }

  /** The batch map: one transaction per extracted item, in the same order;
      only the category is rewritten, date, id and amount pass through. */
  function NormalizeBatch(items: seq<Extracted>): (ts: seq<Transaction>)
    ensures |ts| == |items|
    ensures forall i :: 0 <= i < |items| ==>
      && ts[i].date == items[i].date
      && ts[i].id == items[i].id
      && ts[i].amount == items[i].amount
      && ts[i].kind == Normalize(items[i].rawType)
  {
    if items == [] then [] else [NormalizeItem(items[0])] + NormalizeBatch(items[1..])
  }

  /** Normalizing two batches one after the other is normalizing their concatenation. */
  lemma NormalizeBatchAppend(a: seq<Extracted>, b: seq<Extracted>)
    ensures NormalizeBatch(a + b) == NormalizeBatch(a) + NormalizeBatch(b)
  {
    var l, r := NormalizeBatch(a + b), NormalizeBatch(a) + NormalizeBatch(b);
    assert forall i :: 0 <= i < |a + b| ==> l[i] == r[i];
  }
}
