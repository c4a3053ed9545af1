// Bank detection: the text is normalised, every bank is scored from how often
// its patterns occur, and the best-scoring bank wins if its score reaches the
// confidence threshold; otherwise, or for blank text, the generic tag is used.
module BankDetection {
  import opened Wrappers
  import opened Text
  import opened Rx
  import opened StatementData

  /** A detection pattern: its source text, as the confidence report shows it, and its compiled form. */
  datatype Pat = Pat(source: string, re: Regex)

  /** `naci[oó]n` */
  const Nacion: seq<Piece> := [Lit("naci"), One(OneOf("oó")), Lit("n")]

  /** The banks that have primary patterns, in table order. */
  const ScoredBanks: seq<BankType> := [Chase, Amex, Citibank, BankOfAmerica, CapitalOne, WellsFargo, Discover, BancoNacion]

  const ChasePatterns: seq<Pat> := [
    Pat("chase\\s*card\\s*services", Ci(Spaced(["chase", "card", "services"]))),
    Pat("chase\\s*bank", Ci(Spaced(["chase", "bank"]))),
    Pat("jp\\s*morgan\\s*chase", Ci(Spaced(["jp", "morgan", "chase"]))),
    Pat("chase\\.com", Ci([Lit("chase.com")])),
    Pat("chase\\s*credit\\s*card", Ci(Spaced(["chase", "credit", "card"]))),
    Pat("chase\\s*sapphire", Ci(Spaced(["chase", "sapphire"]))),
    Pat("chase\\s*freedom", Ci(Spaced(["chase", "freedom"]))),
    Pat("chase\\s*slate", Ci(Spaced(["chase", "slate"])))]

  const AmexPatterns: seq<Pat> := [
    Pat("american\\s*express", Ci(Spaced(["american", "express"]))),
    Pat("amex", Ci([Lit("amex")])),
    Pat("americanexpress\\.com", Ci([Lit("americanexpress.com")])),
    Pat("member\\s*since", Ci(Spaced(["member", "since"]))),
    Pat("membership\\s*rewards", Ci(Spaced(["membership", "rewards"]))),
    Pat("centurion\\s*bank", Ci(Spaced(["centurion", "bank"]))),
    Pat("amex\\s*card", Ci(Spaced(["amex", "card"])))]

  const CitibankPatterns: seq<Pat> := [
    Pat("citibank", Ci([Lit("citibank")])),
    Pat("citi\\s*card", Ci(Spaced(["citi", "card"]))),
    Pat("citicards", Ci([Lit("citicards")])),
    Pat("citi\\.com", Ci([Lit("citi.com")])),
    Pat("citibank\\s*n\\.a\\.", Ci(Spaced(["citibank", "n.a."]))),
    Pat("thank\\s*you\\s*points", Ci(Spaced(["thank", "you", "points"]))),
    Pat("citi\\s*double\\s*cash", Ci(Spaced(["citi", "double", "cash"])))]

  const BankOfAmericaPatterns: seq<Pat> := [
    Pat("bank\\s*of\\s*america", Ci(Spaced(["bank", "of", "america"]))),
    Pat("bankofamerica\\.com", Ci([Lit("bankofamerica.com")])),
    Pat("boa\\s*card", Ci(Spaced(["boa", "card"]))),
    Pat("merrill\\s*lynch", Ci(Spaced(["merrill", "lynch"]))),
    Pat("cash\\s*rewards\\s*credit\\s*card", Ci(Spaced(["cash", "rewards", "credit", "card"])))]

  const CapitalOnePatterns: seq<Pat> := [
    Pat("capital\\s*one", Ci(Spaced(["capital", "one"]))),
    Pat("capitalone\\.com", Ci([Lit("capitalone.com")])),
    Pat("venture\\s*card", Ci(Spaced(["venture", "card"]))),
    Pat("quicksilver", Ci([Lit("quicksilver")])),
    Pat("savor\\s*card", Ci(Spaced(["savor", "card"]))),
    Pat("capital\\s*one\\s*bank", Ci(Spaced(["capital", "one", "bank"])))]

  const WellsFargoPatterns: seq<Pat> := [
    Pat("wells\\s*fargo", Ci(Spaced(["wells", "fargo"]))),
    Pat("wellsfargo\\.com", Ci([Lit("wellsfargo.com")])),
    Pat("propel\\s*card", Ci(Spaced(["propel", "card"]))),
    Pat("wells\\s*fargo\\s*bank", Ci(Spaced(["wells", "fargo", "bank"]))),
    Pat("cash\\s*wise", Ci(Spaced(["cash", "wise"])))]

  const DiscoverPatterns: seq<Pat> := [
    Pat("discover\\s*card", Ci(Spaced(["discover", "card"]))),
    Pat("discover\\s*bank", Ci(Spaced(["discover", "bank"]))),
    Pat("discover\\.com", Ci([Lit("discover.com")])),
    Pat("cashback\\s*bonus", Ci(Spaced(["cashback", "bonus"]))),
    Pat("discover\\s*it", Ci(Spaced(["discover", "it"])))]

  const BancoNacionPatterns: seq<Pat> := [
    Pat("banco\\s*naci[oó]n", Ci([Lit("banco"), Star(Space)] + Nacion)),
    Pat("naci[oó]n\\s*bank", Ci(Nacion + [Star(Space), Lit("bank")])),
    Pat("mastercard\\s*gold", Ci(Spaced(["mastercard", "gold"]))),
    Pat("nacion\\s*mastercard", Ci(Spaced(["nacion", "mastercard"]))),
    Pat("banco\\s*de\\s*la\\s*naci[oó]n", Ci(Spaced(["banco", "de", "la"]) + [Star(Space)] + Nacion)),
    Pat("bna\\s*mastercard", Ci(Spaced(["bna", "mastercard"]))),
    Pat("compras\\s*del\\s*mes", Ci(Spaced(["compras", "del", "mes"]))),
    Pat("resumen\\s*de\\s*cuenta", Ci(Spaced(["resumen", "de", "cuenta"])))]

  function PrimaryPatterns(b: BankType): seq<Pat>
  {
    match b
    case Chase => ChasePatterns
    case Amex => AmexPatterns
    case Citibank => CitibankPatterns
    case BankOfAmerica => BankOfAmericaPatterns
    case CapitalOne => CapitalOnePatterns
    case WellsFargo => WellsFargoPatterns
    case Discover => DiscoverPatterns
    case BancoNacion => BancoNacionPatterns
    case Generic => []
  }

  /** The secondary indicators; only three banks have any. */
  function SecondaryPatterns(b: BankType): seq<Regex>
  {
    match b
    case Chase => [
      Ci(Spaced(["ultimate", "rewards"])), Ci(Spaced(["pay", "chase"])),
      Ci(Spaced(["chase", "online"])), Ci(Spaced(["fraud", "prevention", "center"]))]
    case Amex => [
      Ci(Spaced(["pay", "over", "time"])), Ci(Spaced(["platinum", "card"])),
      Ci(Spaced(["gold", "card"])), Ci(Spaced(["green", "card"]))]
    case Citibank => [
      Ci(Spaced(["citi", "online"])), Ci(Spaced(["price", "rewind"])), Ci(Spaced(["citi", "concierge"]))]
    case _ => []
  }

  lemma SecondaryOnlyForThree(b: BankType)
    ensures SecondaryPatterns(b) != [] <==> b == Chase || b == Amex || b == Citibank
  {
  }

  /** The characters the normaliser keeps: `\w`, `\s`, `.`, `-` and `@`. */
  predicate KeepChar(c: char)
  {
    IsWordChar(c) || IsSpace(c) || c == '.' || c == '-' || c == '@'
  }

  /** Strip, collapse whitespace runs, then turn every other character into a space. */
  function CleanForDetection(text: string): (r: string)
    ensures |r| == |CollapseSpaces(Strip(text))|
    ensures forall i :: 0 <= i < |r| ==> KeepChar(r[i])
    ensures forall i :: 0 <= i < |r| ==>
      r[i] == (if KeepChar(CollapseSpaces(Strip(text))[i]) then CollapseSpaces(Strip(text))[i] else ' ')
  {
    var c := CollapseSpaces(Strip(text));
    seq(|c|, i requires 0 <= i < |c| => if KeepChar(c[i]) then c[i] else ' ')
  }

  function Min(a: real, b: real): real { if a <= b then a else b }

  /** What one primary pattern adds: `min(0.3 * count, 1.0)` if it occurs at all. */
  function Contribution(c: nat): real
  {
    if c > 0 then Min(0.3 * c as real, 1.0) else 0.0
  }

  function BaseSum(counts: seq<nat>): real
  {
    if counts == [] then 0.0 else Contribution(counts[0]) + BaseSum(counts[1..])
  }

  /** How many different primary patterns occur. */
  function Distinct(counts: seq<nat>): nat
  {
    if counts == [] then 0 else (if counts[0] > 0 then 1 else 0) + Distinct(counts[1..])
  }

  /** With `k > 1` different patterns the sum grows by 20% per extra pattern. */
  function Boost(base: real, k: nat): real
  {
    if k > 1 then base * Factor(k) else base
  }

  function Factor(k: nat): real
  {
    1.0 + (k - 1) as real * 0.2
  }

  /** 0.1 per secondary indicator found. */
  function Bonus(found: seq<bool>): real
  {
    if found == [] then 0.0 else (if found[0] then 0.1 else 0.0) + Bonus(found[1..])
  }

  /** The score of one bank from its pattern counts and secondary findings, capped at 2.0. */
  function ScoreOf(counts: seq<nat>, found: seq<bool>): real
  {
    Min(Boost(BaseSum(counts), Distinct(counts)) + Bonus(found), 2.0)
  }

  /** `len(pattern.findall(text))` for every pattern. */
  function CountsIn(pats: seq<Pat>, text: string): (cs: seq<nat>)
    ensures |cs| == |pats|
  {
    seq(|pats|, i requires 0 <= i < |pats| => CountAll(pats[i].re, text))
  }

  function FoundIn(res: seq<Regex>, text: string): (fs: seq<bool>)
    ensures |fs| == |res|
  {
    seq(|res|, i requires 0 <= i < |res| => Found(res[i], text))
  }

  function BankScore(b: BankType, clean: string): real
  {
    ScoreOf(CountsIn(PrimaryPatterns(b), clean), FoundIn(SecondaryPatterns(b), clean))
  }

  lemma {:induction false} BaseSumSnoc(cs: seq<nat>, c: nat)
    ensures BaseSum(cs + [c]) == BaseSum(cs) + Contribution(c)
    ensures Distinct(cs + [c]) == Distinct(cs) + (if c > 0 then 1 else 0)
  {
    if cs != [] {
      assert (cs + [c])[1..] == cs[1..] + [c];
      BaseSumSnoc(cs[1..], c);
    }
  }

  lemma {:induction false} BonusSnoc(fs: seq<bool>, f: bool)
    ensures Bonus(fs + [f]) == Bonus(fs) + (if f then 0.1 else 0.0)
  {
    if fs != [] {
      assert (fs + [f])[1..] == fs[1..] + [f];
      BonusSnoc(fs[1..], f);
    }
  }

  /** The primary-pattern loop of `_calculate_bank_score`: the capped per-pattern sum and the
      number of patterns that occur. */
  method PrimarySum(text: string, pats: seq<Pat>) returns (base: real, matched: nat)
    ensures base == BaseSum(CountsIn(pats, text)) && matched == Distinct(CountsIn(pats, text))
  {
    var counts := CountsIn(pats, text);
    base, matched := 0.0, 0;
    var i := 0;
    while i < |pats|
      invariant 0 <= i <= |pats|
      invariant base == BaseSum(counts[..i]) && matched == Distinct(counts[..i])
    {
      var m := CountAll(pats[i].re, text);
      assert counts[..i + 1] == counts[..i] + [m];
      BaseSumSnoc(counts[..i], m);
      if m > 0 {
        matched := matched + 1;
        base := base + Min(m as real * 0.3, 1.0);
      }
      i := i + 1;
    }
    assert counts[..i] == counts;
  }

  /** The secondary-pattern loop of `_calculate_bank_score`: 0.1 per pattern found. */
  method SecondaryBonus(text: string, secondary: seq<Regex>) returns (bonus: real)
    ensures bonus == Bonus(FoundIn(secondary, text))
  {
    var found := FoundIn(secondary, text);
    bonus := 0.0;
    var j := 0;
    while j < |secondary|
      invariant 0 <= j <= |secondary|
      invariant bonus == Bonus(found[..j])
    {
      assert found[..j + 1] == found[..j] + [found[j]];
      BonusSnoc(found[..j], found[j]);
      if Found(secondary[j], text) {
        bonus := bonus + 0.1;
      }
      j := j + 1;
    }
    assert found[..j] == found;
  }

  /** `_calculate_bank_score`: the pattern loop, the boost, the secondary loop and the cap. */
  method CalculateBankScore(text: string, pats: seq<Pat>, secondary: seq<Regex>) returns (score: real)
    ensures score == ScoreOf(CountsIn(pats, text), FoundIn(secondary, text))
  {
    var base, matched := PrimarySum(text, pats);
    if matched > 1 {
      base := Boost(base, matched);
    }
    var bonus := SecondaryBonus(text, secondary);
    score := Min(base + bonus, 2.0);
  }

  lemma {:induction false} BaseSumBounds(cs: seq<nat>)
    ensures 0.0 <= BaseSum(cs) <= Distinct(cs) as real
    ensures Distinct(cs) <= |cs|
  {
    if cs != [] { BaseSumBounds(cs[1..]); }
  }

  lemma {:induction false} BonusBounds(fs: seq<bool>)
    ensures 0.0 <= Bonus(fs)
  {
    if fs != [] { BonusBounds(fs[1..]); }
  }

  /** Every score lies between 0 and the 2.0 cap. */
  lemma ScoreBounds(counts: seq<nat>, found: seq<bool>)
    ensures 0.0 <= ScoreOf(counts, found) <= 2.0
  {
    BaseSumBounds(counts);
    BonusBounds(found);
  }

  predicate CountsNotAbove(c1: seq<nat>, c2: seq<nat>)
  {
    |c1| == |c2| && forall i :: 0 <= i < |c1| ==> c1[i] <= c2[i]
  }

  predicate FoundNotAbove(f1: seq<bool>, f2: seq<bool>)
  {
    |f1| == |f2| && forall i :: 0 <= i < |f1| ==> (f1[i] ==> f2[i])
  }

  lemma {:induction false} BaseSumMonotone(c1: seq<nat>, c2: seq<nat>)
    requires CountsNotAbove(c1, c2)
    ensures BaseSum(c1) <= BaseSum(c2) && Distinct(c1) <= Distinct(c2)
  {
    if c1 != [] {
      assert c1[0] <= c2[0];
      BaseSumMonotone(c1[1..], c2[1..]);
    }
  }

  lemma {:induction false} BonusMonotone(f1: seq<bool>, f2: seq<bool>)
    requires FoundNotAbove(f1, f2)
    ensures Bonus(f1) <= Bonus(f2)
  {
    if f1 != [] {
      assert f1[0] ==> f2[0];
      BonusMonotone(f1[1..], f2[1..]);
    }
  }

  lemma BoostMonotone(b1: real, b2: real, k1: nat, k2: nat)
    requires 0.0 <= b1 <= b2 && k1 <= k2
    ensures Boost(b1, k1) <= Boost(b2, k2)
  {
    if k2 > 1 {
      assert Factor(k2) >= 1.0;
      MulMonotone(b1, b2, Factor(k2));
      if k1 > 1 {
        assert Factor(k1) <= Factor(k2);
        MulMonotone(Factor(k1), Factor(k2), b1);
      } else {
        MulMonotone(1.0, Factor(k2), b1);
      }
    }
  }

  lemma MulMonotone(x: real, y: real, f: real)
    requires x <= y && 0.0 <= f
    ensures x * f <= y * f && f * x <= f * y
  {
  }

  /** More occurrences of any pattern, or more secondary indicators, never lower a score. */
  lemma ScoreMonotone(c1: seq<nat>, c2: seq<nat>, f1: seq<bool>, f2: seq<bool>)
    requires CountsNotAbove(c1, c2) && FoundNotAbove(f1, f2)
    ensures ScoreOf(c1, f1) <= ScoreOf(c2, f2)
  {
    BaseSumMonotone(c1, c2);
    BaseSumBounds(c1);
    BonusMonotone(f1, f2);
    BoostMonotone(BaseSum(c1), BaseSum(c2), Distinct(c1), Distinct(c2));
  }

  /** The first bank, among the first `n`, whose score is positive and maximal. */
  function BestPositive(scores: seq<real>, n: nat): (r: Option<nat>)
    requires n <= |scores|
    ensures r.Some? ==> r.value < n && scores[r.value] > 0.0
  {
    if n == 0 then None
    else
      var b := BestPositive(scores, n - 1);
      if scores[n - 1] > 0.0 && (b.None? || scores[n - 1] > scores[b.value]) then Some(n - 1) else b
  }

  /** `max(bank_scores, key=bank_scores.get)` over the positive scores: the first maximal one. */
  lemma {:induction false} BestPositiveIsFirstMax(scores: seq<real>, n: nat)
    requires n <= |scores|
    ensures BestPositive(scores, n).None? <==> forall j :: 0 <= j < n ==> scores[j] <= 0.0
    ensures BestPositive(scores, n).Some? ==>
      var r := BestPositive(scores, n).value;
      scores[r] > 0.0 && (forall j :: 0 <= j < n ==> scores[j] <= scores[r])
      && (forall j :: 0 <= j < r ==> scores[j] < scores[r])
  {
    if n > 0 { BestPositiveIsFirstMax(scores, n - 1); }
  }

  /** The decision on a list of scores in table order. */
  function Decide(scores: seq<real>, threshold: real): (b: BankType)
    requires |scores| == |ScoredBanks|
  {
    match BestPositive(scores, |scores|)
    case None => Generic
    case Some(r) => if scores[r] < threshold then Generic else ScoredBanks[r]
  }

  function ScoreList(clean: string): (scores: seq<real>)
    ensures |scores| == |ScoredBanks|
  {
    seq(|ScoredBanks|, i requires 0 <= i < |ScoredBanks| => BankScore(ScoredBanks[i], clean))
  }

  /** What `detect_bank` returns. */
  function Detect(text: string, threshold: real): BankType
  {
    if IsBlank(text) then Generic else Decide(ScoreList(CleanForDetection(text)), threshold)
  }

  /** Blank text is generic before any scoring. */
  lemma BlankIsGeneric(text: string, threshold: real)
    requires IsBlank(text)
    ensures Detect(text, threshold) == Generic
  {
  }

  /** A bank is chosen exactly when it is the first positive maximal score and reaches the threshold. */
  lemma DecideChoosesFirstMax(scores: seq<real>, threshold: real, r: nat)
    requires |scores| == |ScoredBanks| && r < |scores|
    ensures Decide(scores, threshold) == ScoredBanks[r] <==>
      scores[r] > 0.0 && scores[r] >= threshold
      && (forall j :: 0 <= j < |scores| ==> scores[j] <= scores[r])
      && (forall j :: 0 <= j < r ==> scores[j] < scores[r])
  {
    BestPositiveIsFirstMax(scores, |scores|);
    ScoredBanksDistinct();
    var b := BestPositive(scores, |scores|);
    if Decide(scores, threshold) == ScoredBanks[r] {
      assert b.Some? && ScoredBanks[b.value] == ScoredBanks[r];
    }
    if scores[r] > 0.0 && (forall j :: 0 <= j < |scores| ==> scores[j] <= scores[r])
       && (forall j :: 0 <= j < r ==> scores[j] < scores[r]) {
      assert b.Some?;
      assert !(b.value < r) && !(r < b.value);
    }
  }

  /** Where a bank stands in the score table. */
  function BankIndex(b: BankType): (i: nat)
    requires b != Generic
    ensures i < |ScoredBanks| && ScoredBanks[i] == b
  {
    match b
    case Chase => 0
    case Amex => 1
    case Citibank => 2
    case BankOfAmerica => 3
    case CapitalOne => 4
    case WellsFargo => 5
    case Discover => 6
    case BancoNacion => 7
  }

  /** The tags in the score table are distinct and the generic tag is not one of them. */
  lemma ScoredBanksDistinct()
    ensures forall i, j :: 0 <= i < j < |ScoredBanks| ==> ScoredBanks[i] != ScoredBanks[j]
    ensures Generic !in ScoredBanks
  {
  }

  /** No score reaching the threshold means the generic tag. */
  lemma BelowThresholdIsGeneric(scores: seq<real>, threshold: real)
    requires |scores| == |ScoredBanks|
    requires forall j :: 0 <= j < |scores| ==> scores[j] < threshold
    ensures Decide(scores, threshold) == Generic
  {
  }

  /** A single primary pattern found once, and nothing else, scores 0.3. */
  lemma {:induction false} SingleMatchScore(counts: seq<nat>, k: nat, found: seq<bool>)
    requires k < |counts| && counts[k] == 1
    requires forall j :: 0 <= j < |counts| && j != k ==> counts[j] == 0
    requires forall j :: 0 <= j < |found| ==> !found[j]
    ensures ScoreOf(counts, found) == 0.3
  {
    SingleSum(counts, k);
    NoBonus(found);
  }

  lemma {:induction false} SingleSum(counts: seq<nat>, k: nat)
    requires k < |counts| && counts[k] == 1
    requires forall j :: 0 <= j < |counts| && j != k ==> counts[j] == 0
    ensures BaseSum(counts) == 0.3 && Distinct(counts) == 1
  {
    if k == 0 {
      ZeroSum(counts[1..]);
    } else {
      SingleSum(counts[1..], k - 1);
    }
  }

  lemma {:induction false} ZeroSum(counts: seq<nat>)
    requires forall j :: 0 <= j < |counts| ==> counts[j] == 0
    ensures BaseSum(counts) == 0.0 && Distinct(counts) == 0
  {
    if counts != [] { ZeroSum(counts[1..]); }
  }

  lemma {:induction false} NoBonus(found: seq<bool>)
    requires forall j :: 0 <= j < |found| ==> !found[j]
    ensures Bonus(found) == 0.0
  {
    if found != [] { NoBonus(found[1..]); }
  }

  /** Scoring and choice on given match counts: two of the seven primary patterns found once each
      (and no secondary one) give 0.6 boosted by 20%, and a bank scoring that while the others score
      nothing is chosen. Which counts a particular text produces is not derived here. */
  lemma AmexExample()
    ensures ScoreOf([1, 0, 0, 1, 0, 0, 0], [false, false, false, false]) == 0.72
    ensures Decide([0.0, 0.72, 0.0, 0.0, 0.0, 0.0, 0.0, 0.0], 0.6) == Amex
  {
    var cs: seq<nat> := [1, 0, 0, 1, 0, 0, 0];
    assert BaseSum(cs) == 0.6 && Distinct(cs) == 2 by {
      ZeroSum(cs[4..]);
      ZeroSum(cs[1..3]);
      assert cs[1..][..2] == cs[1..3] && cs[1..][2..] == cs[3..];
      assert cs[3..][1..] == cs[4..];
    }
    NoBonus([false, false, false, false]);
    var scores := [0.0, 0.72, 0.0, 0.0, 0.0, 0.0, 0.0, 0.0];
    DecideChoosesFirstMax(scores, 0.6, 1);
  }

  /** Scoring and choice on given match counts: one of Chase's eight primary patterns found once
      (the fifth, `chase\s*credit\s*card`), no secondary one and nothing for any other bank score
      0.3, which is under the default threshold, so the generic tag is chosen. */
  lemma ChaseTestExample()
    ensures ScoreOf([0, 0, 0, 0, 1, 0, 0, 0], [false, false, false, false]) == 0.3
    ensures Decide([0.3, 0.0, 0.0, 0.0, 0.0, 0.0, 0.0, 0.0], 0.6) == Generic
  {
    SingleMatchScore([0, 0, 0, 0, 1, 0, 0, 0], 4, [false, false, false, false]);
    BelowThresholdIsGeneric([0.3, 0.0, 0.0, 0.0, 0.0, 0.0, 0.0, 0.0], 0.6);
  }

  method ScoreBank(clean: string, b: BankType) returns (score: real)
    ensures score == BankScore(b, clean)
  {
    score := CalculateBankScore(clean, PrimaryPatterns(b), SecondaryPatterns(b));
  }

  /** The dictionary of positive scores after the first `n` banks. */
  function PositiveScores(scores: seq<real>, n: nat): map<BankType, real>
    requires |scores| == |ScoredBanks| && n <= |scores|
  {
    if n == 0 then map[]
    else
      var m := PositiveScores(scores, n - 1);
      if scores[n - 1] > 0.0 then m[ScoredBanks[n - 1] := scores[n - 1]] else m
  }

  /** A bank is in the dictionary exactly when its score is positive, and then with that score. */
  lemma {:induction false} PositiveScoresLookup(scores: seq<real>, n: nat)
    requires |scores| == |ScoredBanks| && n <= |scores|
    ensures forall j :: 0 <= j < n ==> (ScoredBanks[j] in PositiveScores(scores, n) <==> scores[j] > 0.0)
    ensures forall j :: 0 <= j < n && scores[j] > 0.0 ==> PositiveScores(scores, n)[ScoredBanks[j]] == scores[j]
    ensures forall j :: n <= j < |ScoredBanks| ==> ScoredBanks[j] !in PositiveScores(scores, n)
  {
    ScoredBanksDistinct();
    if n > 0 { PositiveScoresLookup(scores, n - 1); }
  }

  /** The scoring loop of `detect_bank`: the dictionary of the banks with a positive score. */
  method PositiveScoreMap(clean: string) returns (bankScores: map<BankType, real>)
    ensures bankScores == PositiveScores(ScoreList(clean), |ScoredBanks|)
  {
    var scores := ScoreList(clean);
    bankScores := map[];
    var i := 0;
    while i < |ScoredBanks|
      invariant 0 <= i <= |ScoredBanks|
      invariant bankScores == PositiveScores(scores, i)
    {
      var bank := ScoredBanks[i];
      var score := ScoreBank(clean, bank);
      assert score == scores[i];
      if score > 0.0 {
        bankScores := bankScores[bank := score];
      }
      i := i + 1;
    }
  }

  /** The first entry of the dictionary with the largest score, in table order. */
  method FirstBest(scores: seq<real>, bankScores: map<BankType, real>) returns (best: Option<nat>)
    requires |scores| == |ScoredBanks| && bankScores == PositiveScores(scores, |ScoredBanks|)
    ensures best == BestPositive(scores, |scores|)
  {
    PositiveScoresLookup(scores, |ScoredBanks|);
    best := None;
    var k := 0;
    while k < |ScoredBanks|
      invariant 0 <= k <= |ScoredBanks|
      invariant best == BestPositive(scores, k)
    {
      var bank := ScoredBanks[k];
      assert bank in bankScores <==> scores[k] > 0.0;
      assert bank in bankScores ==> bankScores[bank] == scores[k];
      assert best.Some? ==> ScoredBanks[best.value] in bankScores && bankScores[ScoredBanks[best.value]] == scores[best.value];
      if bank in bankScores && (best.None? || bankScores[bank] > bankScores[ScoredBanks[best.value]]) {
        best := Some(k);
      }
      k := k + 1;
    }
  }

  /** `detect_bank`: score every bank into a dictionary of positive scores, take the first maximal
      entry, and keep it only if it reaches the threshold. */
  method DetectBank(text: string, threshold: real) returns (b: BankType)
    ensures b == Detect(text, threshold)
  {
    if IsBlank(text) {
      return Generic;
    }
    var clean := CleanForDetection(text);
    var bankScores := PositiveScoreMap(clean);
    var best := FirstBest(ScoreList(clean), bankScores);
    if best.None? {
      return Generic;
    }
    PositiveScoresLookup(ScoreList(clean), |ScoredBanks|);
    if bankScores[ScoredBanks[best.value]] < threshold {
      return Generic;
    }
    return ScoredBanks[best.value];
  }

  datatype PatternHit = PatternHit(index: nat, source: string, matches: nat)

  datatype BankDetail = BankDetail(score: real, totalMatches: nat, matched: seq<PatternHit>, patternCount: nat)

  /** The patterns among the first `n` that occur, with their counts. */
  function MatchedAmong(pats: seq<Pat>, counts: seq<nat>, n: nat): seq<PatternHit>
    requires |counts| == |pats| && n <= |pats|
  {
    if n == 0 then []
    else MatchedAmong(pats, counts, n - 1)
         + (if counts[n - 1] > 0 then [PatternHit(n - 1, pats[n - 1].source, counts[n - 1])] else [])
  }

  function Total(counts: seq<nat>): nat
  {
    if counts == [] then 0 else Total(counts[..|counts| - 1]) + counts[|counts| - 1]
  }

  function DetailFrom(pats: seq<Pat>, secondary: seq<Regex>, clean: string): BankDetail
  {
    var counts := CountsIn(pats, clean);
    var matched := MatchedAmong(pats, counts, |pats|);
    BankDetail(ScoreOf(counts, FoundIn(secondary, clean)), Total(counts), matched, |matched|)
  }

  /** The confidence entry of one bank. */
  function DetailOf(b: BankType, clean: string): BankDetail
  {
    DetailFrom(PrimaryPatterns(b), SecondaryPatterns(b), clean)
  }

  /** The matched-pattern list names each occurring pattern once, in order, and no other. */
  lemma {:induction false} MatchedAmongFacts(pats: seq<Pat>, counts: seq<nat>, n: nat)
    requires |counts| == |pats| && n <= |pats|
    ensures |MatchedAmong(pats, counts, n)| == Distinct(counts[..n])
    ensures forall h :: h in MatchedAmong(pats, counts, n) ==>
      h.index < n && h.matches == counts[h.index] > 0 && h.source == pats[h.index].source
    ensures forall i, j :: 0 <= i < j < |MatchedAmong(pats, counts, n)| ==>
      MatchedAmong(pats, counts, n)[i].index < MatchedAmong(pats, counts, n)[j].index
  {
    if n > 0 {
      MatchedAmongFacts(pats, counts, n - 1);
      assert counts[..n] == counts[..n - 1] + [counts[n - 1]];
      BaseSumSnoc(counts[..n - 1], counts[n - 1]);
    }
  }

  /** One bank's entry: the matched patterns and total matches counted in one pass, then the score. */
  method BankDetailOf(clean: string, pats: seq<Pat>, secondary: seq<Regex>) returns (d: BankDetail)
    ensures d == DetailFrom(pats, secondary, clean)
  {
    var counts := CountsIn(pats, clean);
    var matched: seq<PatternHit> := [];
    var total := 0;
    var k := 0;
    while k < |pats|
      invariant 0 <= k <= |pats|
      invariant matched == MatchedAmong(pats, counts, k)
      invariant total == Total(counts[..k])
    {
      var m := CountAll(pats[k].re, clean);
      assert counts[..k + 1][..k] == counts[..k];
      if m > 0 {
        matched := matched + [PatternHit(k, pats[k].source, m)];
        total := total + m;
      }
      k := k + 1;
    }
    assert counts[..k] == counts;
    var score := CalculateBankScore(clean, pats, secondary);
    d := BankDetail(score, total, matched, |matched|);
  }

  /** The loop of `get_bank_confidence_details`, over the banks of `banks` in turn. */
  method DetailsFor(clean: string, banks: seq<BankType>) returns (details: map<BankType, BankDetail>)
    ensures forall b :: b in details <==> b in banks
    ensures forall b :: b in details ==> details[b] == DetailOf(b, clean)
  {
    details := map[];
    var i := 0;
    while i < |banks|
      invariant 0 <= i <= |banks|
      invariant forall b :: b in details <==> b in banks[..i]
      invariant forall b :: b in details ==> details[b] == DetailOf(b, clean)
    {
      var bank := banks[i];
      var d := BankDetailOf(clean, PrimaryPatterns(bank), SecondaryPatterns(bank));
      assert banks[..i + 1] == banks[..i] + [bank];
      details := details[bank := d];
      i := i + 1;
    }
    assert banks[..i] == banks;
  }

  /** Every tag but the generic one has a row of the pattern table. */
  lemma ScoredBanksAll()
    ensures forall b :: b in ScoredBanks <==> b != Generic
  {
    ScoredBanksDistinct();
    forall b | b != Generic
      ensures b in ScoredBanks
    {
      assert ScoredBanks[BankIndex(b)] == b;
    }
  }

  /** `get_bank_confidence_details`: per bank, its score, the matches counted, and the patterns matched. */
  method GetBankConfidenceDetails(text: string) returns (details: map<BankType, BankDetail>)
    ensures forall b :: b in details <==> b != Generic
    ensures forall b :: b in details ==> details[b] == DetailOf(b, CleanForDetection(text))
  {
    details := DetailsFor(CleanForDetection(text), ScoredBanks);
    ScoredBanksAll();
  }

  /** `validate_detection`: whether the default-threshold detection gives the expected tag. */
  method ValidateDetection(text: string, expected: BankType) returns (ok: bool)
    ensures ok <==> Detect(text, 0.6) == expected
  {
    var b := DetectBank(text, 0.6);
    ok := b == expected;
  }
}
