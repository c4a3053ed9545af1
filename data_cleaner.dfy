// The cleaning pass applied to parsed statements: descriptions are tidied and
// re-cased, merchant names and categories come from first-match tables,
// amounts are rounded to cents, implausible dates are dropped, duplicates are
// removed and the transaction list is summarised in validation counters.
module DataCleaner {
  import opened Wrappers
  import opened Text
  import opened Rx
  import opened Dates
  import opened Money
  import opened StatementData
  import BaseParser

  // ------------------------------------------------------------ descriptions

  /** The noise removed from a description, in order: a leading `dd/dd` date, a trailing
      four-digit year, `#`/`*` reference marks, embedded dollar amounts, then outer blanks. */
  const NoisePatterns: seq<Regex> := [
    Ci([Bol, Times(Digit, 2, 2), Lit("/"), Times(Digit, 2, 2), Star(Space)]),
    Ci([Star(Space), Times(Digit, 4, 4), Star(Space), Eol]),
    Ci([Plus(OneOf("#*")), Star(Digit)]),
    Ci([Star(Space), Lit("$"), Plus(Digit), Opt(OneOf(".")), Star(Digit), Star(Space)]),
    Ci([Plus(Space), Eol]),
    Ci([Bol, Plus(Space)])
  ]

  /** Abbreviations kept in capitals. */
  const Abbreviations: seq<string> := ["ATM", "POS", "ACH", "API", "LLC", "INC", "USA", "US"]

  /** The two-letter codes of the fifty US states. */
  const StateCodes: set<string> := {
    "AL", "AK", "AZ", "AR", "CA", "CO", "CT", "DE", "FL", "GA",
    "HI", "ID", "IL", "IN", "IA", "KS", "KY", "LA", "ME", "MD",
    "MA", "MI", "MN", "MS", "MO", "MT", "NE", "NV", "NH", "NJ",
    "NM", "NY", "NC", "ND", "OH", "OK", "OR", "PA", "RI", "SC",
    "SD", "TN", "TX", "UT", "VT", "VA", "WA", "WV", "WI", "WY"
  }

  /** Python's `str.capitalize()`: the first character in capitals, the rest in lower case. */
  function Capitalize(w: string): (r: string)
    ensures |r| == |w|
  {
    if w == [] then [] else [UpperChar(w[0])] + Lower(w[1..])
  }

  /** Changing case never turns a character into white space. */
  lemma CaseKeepsWord(w: string)
    ensures IsWord(w) ==> IsWord(Upper(w)) && IsWord(Capitalize(w))
  {
  }

  /** How one word is re-cased: abbreviations and state codes in capitals, every other word
      capitalised; the result is still one word of the same length. */
  function NormalizeWord(w: string): (r: string)
    ensures Upper(w) in Abbreviations ==> r == Upper(w)
    ensures |w| == 2 && Upper(w) in StateCodes ==> r == Upper(w)
    ensures Upper(w) !in Abbreviations && !(|w| == 2 && Upper(w) in StateCodes) ==> r == Capitalize(w)
    ensures |r| == |w| && (IsWord(w) ==> IsWord(r))
  {
    CaseKeepsWord(w);
    if Upper(w) in Abbreviations then Upper(w)
    else if |w| == 2 && Upper(w) in StateCodes then Upper(w)
    else Capitalize(w)
  }

  function NormalizeWords(ws: seq<string>): (r: seq<string>)
    ensures |r| == |ws|
    ensures forall k :: 0 <= k < |ws| ==> r[k] == NormalizeWord(ws[k])
  {
    seq(|ws|, k requires 0 <= k < |ws| => NormalizeWord(ws[k]))
  }

  /** The description with its white space collapsed and the noise patterns removed. */
  function Denoised(description: string): string
  {
    SubEach(NoisePatterns, CollapseSpaces(Strip(description)))
  }

  /** What `clean_description` returns. */
  function CleanDescriptionOf(description: string): string
  {
    if description == [] then [] else JoinWords(NormalizeWords(Words(Denoised(description))))
  }

  /** `w + " " + rest` splits into `w` followed by the words of `rest`. */
  lemma {:induction false} WordsCons(w: string, rest: string)
    requires IsWord(w) && rest != [] && !IsSpace(rest[0])
    ensures Words(w + " " + rest) == [w] + Words(rest)
  {
    var s := w + " " + rest;
    assert s[0] == w[0];
    assert LeadSpaces(s) == 0;
    assert s[0..] == s;
    assert s == w + (" " + rest);
    WordLenOfWord(w, " " + rest);
    assert s[..|w|] == w;
    assert s[|w|..] == " " + rest;
    var t := " " + rest;
    assert t[1..] == rest;
    assert LeadSpaces(rest) == 0;
    assert LeadSpaces(t) == 1;
    assert rest[0..] == rest;
  }

  /** A single word splits into itself. */
  lemma WordsOfOne(w: string)
    requires IsWord(w)
    ensures Words(w) == [w]
  {
    assert LeadSpaces(w) == 0 by { assert !IsSpace(w[0]); }
    assert w[0..] == w;
    assert w == w + [];
    WordLenOfWord(w, []);
    assert w[|w|..] == [];
  }

  /** A word, one space, then single-spaced text that starts with a word: still single
      spaced, starting with the word and ending where the text ends. */
  lemma JoinSpacing(w: string, rest: string)
    requires IsWord(w) && rest != [] && !IsSpace(rest[0]) && SingleSpaced(rest)
    ensures var s := w + " " + rest;
      SingleSpaced(s) && s[0] == w[0] && s[|s| - 1] == rest[|rest| - 1]
  {
    var s := w + " " + rest;
    forall i | 0 <= i < |s|
      ensures IsSpace(s[i]) ==> s[i] == ' ' && (i < |s| - 1 ==> !IsSpace(s[i + 1]))
    {
      if i < |w| {
        assert s[i] == w[i];
      } else if i == |w| {
        assert s[i + 1] == rest[0];
      } else {
        assert s[i] == rest[i - |w| - 1];
        if i < |s| - 1 {
          assert s[i + 1] == rest[i - |w|];
        }
      }
    }
  }

  /** Words joined by single spaces: no outer blanks, single spacing, and `split()` gives
      the words back. */
  lemma {:induction false} JoinWordsShape(ws: seq<string>)
    requires forall k :: 0 <= k < |ws| ==> IsWord(ws[k])
    ensures var s := JoinWords(ws);
      && Words(s) == ws && SingleSpaced(s)
      && (s != [] ==> !IsSpace(s[0]) && !IsSpace(s[|s| - 1]))
    decreases |ws|
  {
    if |ws| == 1 {
      WordsOfOne(ws[0]);
    } else if |ws| > 1 {
      JoinWordsShape(ws[1..]);
      JoinMore(ws);
    }
  }

  /** The shape of the joined words follows from the shape of the joined tail. */
  lemma JoinMore(ws: seq<string>)
    requires |ws| > 1 && forall k :: 0 <= k < |ws| ==> IsWord(ws[k])
    requires var s := JoinWords(ws[1..]);
      && Words(s) == ws[1..] && SingleSpaced(s)
      && (s != [] ==> !IsSpace(s[0]) && !IsSpace(s[|s| - 1]))
    ensures var s := JoinWords(ws);
      && Words(s) == ws && SingleSpaced(s)
      && (s != [] ==> !IsSpace(s[0]) && !IsSpace(s[|s| - 1]))
  {
    var rest := JoinWords(ws[1..]);
    assert rest != [] by { assert Words(rest) == ws[1..]; }
    JoinOne(ws[0], rest);
    assert JoinWords(ws) == ws[0] + " " + rest;
    assert [ws[0]] + ws[1..] == ws;
  }

  /** One more word in front of a joined, single-spaced text. */
  lemma JoinOne(w: string, rest: string)
    requires IsWord(w) && rest != [] && !IsSpace(rest[0]) && !IsSpace(rest[|rest| - 1])
    requires SingleSpaced(rest)
    ensures var s := w + " " + rest;
      && Words(s) == [w] + Words(rest) && SingleSpaced(s)
      && !IsSpace(s[0]) && !IsSpace(s[|s| - 1])
  {
    WordsCons(w, rest);
    JoinSpacing(w, rest);
  }

  /** `clean_description`: an empty input gives "", and otherwise the cleaned words, each
      re-cased as `NormalizeWord` says, joined by single spaces with nothing around them. */
  lemma CleanDescriptionShape(description: string)
    ensures description == [] ==> CleanDescriptionOf(description) == []
    ensures var r := CleanDescriptionOf(description); r == Strip(r) && SingleSpaced(r)
    ensures description != [] ==> Words(CleanDescriptionOf(description)) == NormalizeWords(Words(Denoised(description)))
  {
    if description != [] {
      var ws := NormalizeWords(Words(Denoised(description)));
      JoinWordsShape(ws);
      var r := JoinWords(ws);
      if r != [] {
        StripUnchanged(r);
      }
    }
  }

  /** `re.sub(p, '', s)` for each pattern `p` of `res` in turn. */
  method RemoveAll(res: seq<Regex>, s: string) returns (r: string)
    ensures r == SubEach(res, s)
  {
    r := s;
    var i := 0;
    while i < |res|
      invariant 0 <= i <= |res|
      invariant r == SubEach(res[..i], s)
    {
      assert res[..i + 1][..i] == res[..i];
      r := Sub(res[i], r, "");
      i := i + 1;
    }
    assert res[..i] == res;
  }

  /** The re-casing loop of `clean_description`, one word at a time. */
  method NormalizeEach(words: seq<string>) returns (normalized: seq<string>)
    ensures normalized == NormalizeWords(words)
  {
    normalized := [];
    var j := 0;
    while j < |words|
      invariant 0 <= j <= |words|
      invariant normalized == NormalizeWords(words[..j])
    {
      normalized := normalized + [NormalizeWord(words[j])];
      j := j + 1;
    }
    assert words[..j] == words;
  }

  /** `clean_description`, step by step: the white space, each noise pattern in turn, then
      the words one at a time. */
  method CleanDescription(description: string) returns (cleaned: string)
    ensures cleaned == CleanDescriptionOf(description)
  {
    if description == [] {
      return [];
    }
    cleaned := CollapseSpaces(Strip(description));
    cleaned := RemoveAll(NoisePatterns, cleaned);
    var normalized := NormalizeEach(Words(cleaned));
    cleaned := JoinWords(normalized);
  }

  // ----------------------------------------------------------- merchant names

  /** A merchant name whose words may be run together, followed by a store number. */
  function Store(ws: seq<string>): Regex
  {
    Ci(Spaced(ws) + [Star(Space), Star(Digit)])
  }

  /** The merchant table, in order: each pattern with the name it writes. */
  const MerchantTable: seq<(Regex, string)> := [
    (Store(["shell"]), "Shell"), (Store(["exxon", "mobil"]), "ExxonMobil"), (Store(["bp"]), "BP"),
    (Store(["chevron"]), "Chevron"), (Store(["texaco"]), "Texaco"),
    (Store(["walmart", "supercenter"]), "Walmart"), (Store(["target"]), "Target"),
    (Store(["kroger"]), "Kroger"), (Store(["safeway"]), "Safeway"), (Store(["whole", "foods"]), "Whole Foods"),
    (Ci([Lit("mcdonald"), Opt(OneOf("'")), Lit("s"), Star(Space), Star(Digit)]), "McDonald's"),
    (Store(["starbucks"]), "Starbucks"), (Store(["subway"]), "Subway"),
    (Store(["taco", "bell"]), "Taco Bell"), (Store(["pizza", "hut"]), "Pizza Hut"),
    (Ci([Lit("amazon.com"), Opt(OneOf("*")), Star(Word)]), "Amazon"),
    (Ci(Spaced(["amzn", "mktp", "us"])), "Amazon"),
    (Ci([Lit("paypal"), Star(Space), Opt(OneOf("*")), Star(Word)]), "PayPal"),
    (Ci([Lit("netflix.com")]), "Netflix"),
    (Ci([Lit("spotify"), Star(Space), Star(Word)]), "Spotify"),
    (Store(["electric", "company"]), "Electric Company"), (Store(["gas", "company"]), "Gas Company"),
    (Store(["water", "dept"]), "Water Department")
  ]

  /** The first entry of `table`, from the `k`-th on, whose pattern is found in `s`. */
  function FirstFound<T>(table: seq<(Regex, T)>, s: string, k: nat): (r: Option<nat>)
    requires k <= |table|
    ensures r.Some? ==> k <= r.value < |table| && Found(table[r.value].0, s)
    ensures r.Some? ==> forall j :: k <= j < r.value ==> !Found(table[j].0, s)
    ensures r.None? <==> forall j :: k <= j < |table| ==> !Found(table[j].0, s)
    decreases |table| - k
  {
    if k == |table| then None
    else if Found(table[k].0, s) then Some(k)
    else FirstFound(table, s, k + 1)
  }

  /** A rewrite table applied to `s`: the first pattern found rewrites every one of its
      occurrences; when none is found `s` is unchanged. */
  function RewriteFirst(table: seq<(Regex, string)>, s: string): (r: string)
    ensures (forall k :: 0 <= k < |table| ==> !Found(table[k].0, s)) ==> r == s
    ensures forall k :: (0 <= k < |table| && Found(table[k].0, s)
      && (forall j :: 0 <= j < k ==> !Found(table[j].0, s))
      ==> r == Sub(table[k].0, s, table[k].1))
  {
    match FirstFound(table, s, 0)
    case None => s
    case Some(k) => Sub(table[k].0, s, table[k].1)
  }


  // --------------------------------------------------------------- categories

  /** A case-insensitive alternation of names whose words may be run together. */
  function AnyName(names: seq<seq<string>>): Regex
  {
    Regex(seq(|names|, k requires 0 <= k < |names| => Branch(Spaced(names[k]))), true)
  }

  /** The category table, in order: each category with its patterns. */
  const CategoryTable: seq<(string, seq<Regex>)> := [
    ("Gas", [AnyName([["shell"], ["exxon"], ["bp"], ["chevron"], ["texaco"], ["gas", "station"]]),
             AnyName([["fuel"], ["gasoline"]])]),
    ("Groceries", [AnyName([["walmart"], ["target"], ["kroger"], ["safeway"], ["whole", "foods"], ["grocery"]]),
                   AnyName([["supermarket"], ["food", "store"]])]),
    ("Restaurants", [AnyName([["mcdonald"], ["starbucks"], ["subway"], ["taco", "bell"], ["pizza"], ["restaurant"]]),
                     AnyName([["food"], ["dining"], ["cafe"], ["bistro"]])]),
    ("Online Shopping", [AnyName([["amazon"], ["ebay"], ["etsy"], ["online"]]),
                         AnyName([["amzn", "mktp"]])]),
    ("Entertainment", [AnyName([["netflix"], ["spotify"], ["hulu"], ["disney"], ["movie"], ["theater"]]),
                       AnyName([["entertainment"], ["streaming"]])]),
    ("Utilities", [AnyName([["electric"], ["gas", "company"], ["water"], ["utility"], ["power"]]),
                   AnyName([["phone"], ["internet"], ["cable"]])]),
    ("Transportation", [AnyName([["uber"], ["lyft"], ["taxi"], ["bus"], ["metro"], ["transit"]]),
                        AnyName([["parking"], ["toll"]])]),
    ("Healthcare", [AnyName([["pharmacy"], ["cvs"], ["walgreens"], ["hospital"], ["medical"]]),
                    AnyName([["doctor"], ["dentist"], ["clinic"]])])
  ]

  /** Some pattern of the list is found in `s`. */
  predicate AnyFound(res: seq<Regex>, s: string)
  {
    exists k :: 0 <= k < |res| && Found(res[k], s)
  }

  /** The first category of `table`, from the `c`-th on, with a pattern found in `s`. */
  function FirstCategoryFrom(table: seq<(string, seq<Regex>)>, s: string, c: nat): (r: Option<nat>)
    requires c <= |table|
    ensures r.Some? ==> c <= r.value < |table| && AnyFound(table[r.value].1, s)
    ensures r.Some? ==> forall j :: c <= j < r.value ==> !AnyFound(table[j].1, s)
    ensures r.None? <==> forall j :: c <= j < |table| ==> !AnyFound(table[j].1, s)
    decreases |table| - c
  {
    if c == |table| then None
    else if AnyFound(table[c].1, s) then Some(c)
    else FirstCategoryFrom(table, s, c + 1)
  }

  /** A category table applied to `s`: the first category in table order with a pattern
      found in `s`, or None when no pattern of any category is found. */
  function CategorizeWith(table: seq<(string, seq<Regex>)>, s: string): (r: Option<string>)
    ensures r.None? <==> forall c :: 0 <= c < |table| ==> !AnyFound(table[c].1, s)
    ensures r.Some? ==> exists c :: (0 <= c < |table| && r.value == table[c].0 && AnyFound(table[c].1, s)
      && forall j :: 0 <= j < c ==> !AnyFound(table[j].1, s))
  {
    match FirstCategoryFrom(table, s, 0)
    case None => None
    case Some(c) => Some(table[c].0)
  }

  /** A `DataCleaner`: the merchant and category tables it is built with. */
  datatype Cleaner = Cleaner(merchants: seq<(Regex, string)>, categories: seq<(string, seq<Regex>)>)

  /** `DataCleaner()`. */
  const NewCleaner: Cleaner := Cleaner(MerchantTable, CategoryTable)

  /** `standardize_merchant_name`: the first pattern of the merchant table found in the
      description rewrites every one of its occurrences; when none is found the description
      is unchanged. */
  function StandardizeMerchantName(cleaner: Cleaner, description: string): string
  {
    RewriteFirst(cleaner.merchants, description)
  }

  /** `auto_categorize`: the first category in table order one of whose patterns is found,
      or None. */
  function AutoCategorize(cleaner: Cleaner, description: string): Option<string>
  {
    CategorizeWith(cleaner.categories, description)
  }

  // ------------------------------------------------------------------ amounts

  /** `Decimal.quantize` fails once the result needs more than 28 digits (the default
      context precision), that is from 10^26 on in cents. */
  const AmountLimit: real := 100000000000000000000000000.0

  /** `clean_amount`: rounded to cents with ties to even, or 0.0 when the rounded value
      does not fit the decimal context. */
  function CleanAmount(x: real): (r: real)
    ensures IsCents(r) && Abs(r) < AmountLimit
    ensures Abs(RoundCents(x)) < AmountLimit ==> r == RoundCents(x)
    ensures Abs(RoundCents(x)) >= AmountLimit ==> r == 0.0
  {
    var q := RoundCents(x);
    if Abs(q) < AmountLimit then q
    else
      assert (0.0 * 100.0).Floor == 0;
      0.0
  }

  /** A value already in cents, and within the limit, passes unchanged. */
  lemma CleanAmountKeepsCents(x: real)
    ensures IsCents(x) && Abs(x) < AmountLimit ==> CleanAmount(x) == x
  {
    if IsCents(x) {
      RoundCentsKeepsCents(x);
    }
  }

  lemma CleanAmountIdempotent(x: real)
    ensures CleanAmount(CleanAmount(x)) == CleanAmount(x)
  {
    CleanAmountKeepsCents(CleanAmount(x));
  }

  // -------------------------------------------------------------------- dates

  /** `is_valid_date`: from 1 January ten years before today's year to 31 December of the
      year after it, both included. */
  predicate IsValidDate(d: Date, today: Date)
  {
    NotAfter(Date(today.year - 10, 1, 1), d) && NotAfter(d, Date(today.year + 1, 12, 31))
  }

  /** For a real calendar date the window is a range of whole years. */
  lemma ValidDateWindow(d: Date, today: Date)
    requires Valid(d)
    ensures IsValidDate(d, today) <==> today.year - 10 <= d.year <= today.year + 1
  {
    assert d.day <= 31;
  }

  // ------------------------------------------------------------- transactions

  /** A category the caller already set; the empty string counts as unset. */
  predicate HasCategory(t: Transaction)
  {
    t.category.Some? && t.category.value != []
  }

  /** `clean_transaction`: None when the cleaned description is blank or the date is outside
      the window; otherwise the date, type and reference are kept, the description is the
      standardised one, a category the transaction had is kept and a missing one is filled
      in from the table, and the amount is the cleaned amount. */
  function CleanTransaction(cleaner: Cleaner, t: Transaction, today: Date): (r: Option<Transaction>)
    requires WellFormed(t)
    ensures r.None? <==> IsBlank(CleanDescriptionOf(t.description)) || !IsValidDate(t.date, today)
    ensures r.Some? ==> WellFormed(r.value)
    ensures r.Some? ==> r.value.date == t.date && r.value.ttype == t.ttype && r.value.reference == t.reference
    ensures r.Some? ==> r.value.description == Strip(StandardizeMerchantName(cleaner, CleanDescriptionOf(t.description)))
    ensures r.Some? && HasCategory(t) ==> r.value.category == t.category
    ensures r.Some? && !HasCategory(t) ==> r.value.category == AutoCategorize(cleaner, StandardizeMerchantName(cleaner, CleanDescriptionOf(t.description)))
    ensures r.Some? ==> r.value.amount == CleanAmount(t.amount)
    ensures r.Some? && Abs(t.amount) < AmountLimit ==> r.value.amount == t.amount
  {
    var cleaned := CleanDescriptionOf(t.description);
    if IsBlank(cleaned) || !IsValidDate(t.date, today) then None
    else
      var standardized := StandardizeMerchantName(cleaner, cleaned);
      var category := if HasCategory(t) then t.category else AutoCategorize(cleaner, standardized);
      var amount := CleanAmount(t.amount);
      CleanAmountKeepsCents(t.amount);
      Some(NewTransaction(t.date, standardized, amount, t.ttype, category, t.reference))
  }

  /** What cleaning one transaction adds to the result: nothing, or the cleaned transaction. */
  function CleanOne(cleaner: Cleaner, t: Transaction, today: Date): (r: seq<Transaction>)
    requires WellFormed(t)
    ensures AllWellFormed(r) && |r| <= 1
  {
    match CleanTransaction(cleaner, t, today)
    case None => []
    case Some(c) => [c]
  }

  /** The transactions that survive cleaning, cleaned, in their original order. */
  function CleanAll(cleaner: Cleaner, txs: seq<Transaction>, today: Date): (r: seq<Transaction>)
    requires AllWellFormed(txs)
    ensures AllWellFormed(r) && |r| <= |txs|
  {
    if txs == [] then []
    else
      var init := txs[..|txs| - 1];
      assert AllWellFormed(init);
      var rest := CleanAll(cleaner, init, today);
      var last := CleanOne(cleaner, txs[|txs| - 1], today);
      WellFormedAppend(rest, last);
      rest + last
  }

  /** Cleaning a list is cleaning its parts: it keeps exactly the transactions whose
      cleaning succeeds, in order. */
  lemma {:induction false} CleanAllAppend(cleaner: Cleaner, a: seq<Transaction>, b: seq<Transaction>, today: Date)
    requires AllWellFormed(a) && AllWellFormed(b)
    ensures AllWellFormed(a + b)
    ensures CleanAll(cleaner, a + b, today) == CleanAll(cleaner, a, today) + CleanAll(cleaner, b, today)
    decreases |b|
  {
    WellFormedAppend(a, b);
    if b == [] {
      assert a + b == a;
    } else {
      var init := b[..|b| - 1];
      assert (a + b)[..|a + b| - 1] == a + init;
      assert (a + b)[|a + b| - 1] == b[|b| - 1];
      CleanAllAppend(cleaner, a, init, today);
    }
  }

  lemma CleanAllOne(cleaner: Cleaner, t: Transaction, today: Date)
    requires WellFormed(t)
    ensures CleanAll(cleaner, [t], today) == match CleanTransaction(cleaner, t, today) case None => [] case Some(c) => [c]
  {
    assert [t][..0] == [];
  }

  const CleaningNotePrefix := "Data cleaning applied: "

  function CleaningNote(n: nat): string
  {
    CleaningNotePrefix + NatToString(n) + " transactions processed"
  }

  /** The loop of `clean_statement`: each transaction cleaned, the survivors kept in order. */
  method CleanEach(cleaner: Cleaner, txs: seq<Transaction>, today: Date) returns (cleaned: seq<Transaction>)
    requires AllWellFormed(txs)
    ensures cleaned == CleanAll(cleaner, txs, today)
  {
    cleaned := [];
    var i := 0;
    while i < |txs|
      invariant 0 <= i <= |txs|
      invariant AllWellFormed(txs[..i])
      invariant cleaned == CleanAll(cleaner, txs[..i], today)
    {
      CleanAllStep(cleaner, txs, i, today);
      var c := CleanTransaction(cleaner, txs[i], today);
      if c.Some? {
        cleaned := cleaned + [c.value];
      }
      i := i + 1;
    }
    assert txs[..i] == txs;
  }

  /** One more transaction of the list, cleaned: what `CleanOne` gives is appended. */
  lemma CleanAllStep(cleaner: Cleaner, txs: seq<Transaction>, i: nat, today: Date)
    requires AllWellFormed(txs) && i < |txs|
    ensures AllWellFormed(txs[..i]) && AllWellFormed(txs[..i + 1])
    ensures CleanAll(cleaner, txs[..i + 1], today) == CleanAll(cleaner, txs[..i], today) + CleanOne(cleaner, txs[i], today)
  {
    assert txs[..i + 1][..i] == txs[..i];
    assert AllWellFormed(txs[..i + 1]);
  }

  /** `clean_statement`: the statement's own list is replaced by the cleaned transactions
      and one note with their count is appended; the same object is returned. */
  method CleanStatement(cleaner: Cleaner, statement: ProcessedStatement, today: Date) returns (result: ProcessedStatement)
    requires statement.Valid()
    modifies statement
    ensures result == statement && statement.Valid()
    ensures statement.transactions == CleanAll(cleaner, old(statement.transactions), today)
    ensures statement.notes == old(statement.notes) + [CleaningNote(|statement.transactions|)]
    ensures statement.metadata == old(statement.metadata) && statement.rawText == old(statement.rawText)
  {
    var cleaned := CleanEach(cleaner, statement.transactions, today);
    statement.transactions := cleaned;
    statement.notes := statement.notes + [CleaningNote(|cleaned|)];
    result := statement;
  }

  // ------------------------------------------------------------ deduplication

  /** The fields two transactions must share to count as duplicates; the amount is taken
      without its sign. */
  function KeyOf(t: Transaction): (Date, string, real)
  {
    (t.date, Lower(Strip(t.description)), Abs(t.amount))
  }

  function KeysOf<T, K>(xs: seq<T>, key: T -> K): set<K>
  {
    set i | 0 <= i < |xs| :: key(xs[i])
  }

  lemma KeysSnoc<T, K>(xs: seq<T>, x: T, key: T -> K)
    ensures KeysOf(xs + [x], key) == KeysOf(xs, key) + {key(x)}
  {
    var s := xs + [x];
    forall k | k in KeysOf(s, key) ensures k in KeysOf(xs, key) + {key(x)} {
      var i :| 0 <= i < |s| && key(s[i]) == k;
      if i < |xs| {
        assert s[i] == xs[i];
      }
    }
    forall k | k in KeysOf(xs, key) ensures k in KeysOf(s, key) {
      var i :| 0 <= i < |xs| && key(xs[i]) == k;
      assert s[i] == xs[i];
    }
    assert s[|xs|] == x;
  }

  /** Each element whose key has not been seen before, in order. */
  function DedupBy<T, K(==)>(xs: seq<T>, key: T -> K): (r: seq<T>)
    ensures |r| <= |xs|
  {
    if xs == [] then []
    else
      var d := DedupBy(xs[..|xs| - 1], key);
      if key(xs[|xs| - 1]) in KeysOf(d, key) then d else d + [xs[|xs| - 1]]
  }

  /** What `deduplicate_transactions` returns. */
  function Dedup(txs: seq<Transaction>): seq<Transaction>
  {
    DedupBy(txs, KeyOf)
  }

  /** `deduplicate_transactions`, with its `seen` set. */
  method DeduplicateTransactions(txs: seq<Transaction>) returns (unique: seq<Transaction>)
    ensures unique == Dedup(txs)
  {
    var seen: set<(Date, string, real)> := {};
    unique := [];
    var i := 0;
    while i < |txs|
      invariant 0 <= i <= |txs|
      invariant unique == DedupBy(txs[..i], KeyOf)
      invariant seen == KeysOf(unique, KeyOf)
    {
      assert txs[..i + 1][..i] == txs[..i];
      var key := KeyOf(txs[i]);
      if key !in seen {
        KeysSnoc(unique, txs[i], KeyOf);
        seen := seen + {key};
        unique := unique + [txs[i]];
      }
      i := i + 1;
    }
    assert txs[..i] == txs;
  }

  /** `r` is `s` with some elements left out and the rest in their order. */
  predicate SubsequenceOf<T(==)>(r: seq<T>, s: seq<T>)
    decreases |s|
  {
    if s == [] then r == []
    else
      || (r != [] && r[|r| - 1] == s[|s| - 1] && SubsequenceOf(r[..|r| - 1], s[..|s| - 1]))
      || SubsequenceOf(r, s[..|s| - 1])
  }

  /** No key is lost: the result has an element for every key of the input, and no other. */
  lemma {:induction false} DedupKeys<T, K>(xs: seq<T>, key: T -> K)
    ensures KeysOf(DedupBy(xs, key), key) == KeysOf(xs, key)
    decreases |xs|
  {
    if xs != [] {
      var init := xs[..|xs| - 1];
      var x := xs[|xs| - 1];
      assert xs == init + [x];
      DedupKeys(init, key);
      KeysSnoc(init, x, key);
      KeysSnoc(DedupBy(init, key), x, key);
    }
  }

  /** The result keeps the input's order. */
  lemma {:induction false} DedupSubsequence<T, K>(xs: seq<T>, key: T -> K)
    ensures SubsequenceOf(DedupBy(xs, key), xs)
    decreases |xs|
  {
    if xs != [] {
      var init := xs[..|xs| - 1];
      var d := DedupBy(init, key);
      DedupSubsequence(init, key);
      var r := DedupBy(xs, key);
      if r != d {
        assert r[..|r| - 1] == d;
      }
    }
  }

  /** No two elements of the result share a key. */
  lemma {:induction false} DedupDistinctKeys<T, K>(xs: seq<T>, key: T -> K)
    ensures forall i, j :: 0 <= i < j < |DedupBy(xs, key)| ==> key(DedupBy(xs, key)[i]) != key(DedupBy(xs, key)[j])
    decreases |xs|
  {
    if xs != [] {
      var init := xs[..|xs| - 1];
      var x := xs[|xs| - 1];
      var d := DedupBy(init, key);
      DedupDistinctKeys(init, key);
      var r := DedupBy(xs, key);
      if key(x) !in KeysOf(d, key) {
        assert r == d + [x];
        forall i, j | 0 <= i < j < |r| ensures key(r[i]) != key(r[j]) {
          assert r[i] == d[i];
          if j < |d| {
            assert r[j] == d[j];
            assert key(d[i]) != key(d[j]);
          } else {
            assert r[j] == x;
            assert key(d[i]) in KeysOf(d, key);
          }
        }
      }
    }
  }

  /** `xs[i]` is the first element of `xs` with its key. */
  predicate IsFirstOfKey<T, K(==)>(xs: seq<T>, i: nat, key: T -> K)
    requires i < |xs|
  {
    forall h :: 0 <= h < i ==> key(xs[h]) != key(xs[i])
  }

  /** Each element of the result is the first of its key in the input. */
  lemma {:induction false} DedupFirst<T, K>(xs: seq<T>, key: T -> K)
    ensures forall j :: 0 <= j < |DedupBy(xs, key)| ==> exists i :: 0 <= i < |xs| && xs[i] == DedupBy(xs, key)[j] && IsFirstOfKey(xs, i, key)
    decreases |xs|
  {
    if xs != [] {
      var init := xs[..|xs| - 1];
      var x := xs[|xs| - 1];
      var d := DedupBy(init, key);
      DedupFirst(init, key);
      DedupKeys(init, key);
      var r := DedupBy(xs, key);
      forall j | 0 <= j < |DedupBy(xs, key)|
        ensures exists i :: 0 <= i < |xs| && xs[i] == DedupBy(xs, key)[j] && IsFirstOfKey(xs, i, key)
      {
        if j < |d| {
          assert r[j] == d[j];
          var i :| 0 <= i < |init| && init[i] == d[j] && IsFirstOfKey(init, i, key);
          assert xs[i] == init[i];
          forall h | 0 <= h < i ensures key(xs[h]) != key(xs[i]) {
            assert xs[h] == init[h];
          }
          assert IsFirstOfKey(xs, i, key);
        } else {
          assert r[j] == x;
          forall h | 0 <= h < |xs| - 1 ensures key(xs[h]) != key(x) {
            assert xs[h] == init[h];
            assert key(init[h]) in KeysOf(init, key);
          }
          assert IsFirstOfKey(xs, |xs| - 1, key);
        }
      }
      assert forall j :: 0 <= j < |DedupBy(xs, key)| ==> exists i :: 0 <= i < |xs| && xs[i] == DedupBy(xs, key)[j] && IsFirstOfKey(xs, i, key);
    } else {
      assert DedupBy(xs, key) == [];
    }
  }

  /** A list whose keys are already distinct is left as it is. */
  lemma {:induction false} DedupOfDistinct<T, K>(xs: seq<T>, key: T -> K)
    requires forall i, j :: 0 <= i < j < |xs| ==> key(xs[i]) != key(xs[j])
    ensures DedupBy(xs, key) == xs
    decreases |xs|
  {
    if xs != [] {
      var init := xs[..|xs| - 1];
      var x := xs[|xs| - 1];
      DedupOfDistinct(init, key);
      forall i | 0 <= i < |init| ensures key(init[i]) != key(x) {
        assert xs[i] == init[i];
      }
      assert key(x) !in KeysOf(init, key);
      assert xs == init + [x];
    }
  }

  lemma DedupIdempotent<T, K>(xs: seq<T>, key: T -> K)
    ensures DedupBy(DedupBy(xs, key), key) == DedupBy(xs, key)
  {
    DedupDistinctKeys(xs, key);
    DedupOfDistinct(DedupBy(xs, key), key);
  }

  /** An element right after one with the same key is dropped. */
  lemma DedupDropsRepeat<T, K>(xs: seq<T>, x: T, y: T, key: T -> K)
    requires key(y) == key(x)
    ensures DedupBy(xs + [x] + [y], key) == DedupBy(xs + [x], key)
  {
    var s := xs + [x];
    assert (s + [y])[..|s + [y]| - 1] == s;
    DedupKeys(s, key);
    KeysSnoc(xs, x, key);
  }

  /** A charge and its reversal, same date and description, count as duplicates: the second
      one is dropped. */
  lemma DedupDropsReversal(txs: seq<Transaction>, t: Transaction)
    ensures Dedup(txs + [t] + [t.(amount := -t.amount)]) == Dedup(txs + [t])
  {
    DedupDropsRepeat(txs, t, t.(amount := -t.amount), KeyOf);
  }

  // --------------------------------------------------------------- validation

  /** A transaction `validate_transaction_data` counts as valid. */
  predicate IsValidTransaction(t: Transaction, today: Date)
  {
    IsValidDate(t.date, today) && !IsBlank(t.description)
  }

  function CountInvalidDates(txs: seq<Transaction>, today: Date): (n: nat)
    ensures n <= |txs|
  {
    if txs == [] then 0
    else CountInvalidDates(txs[..|txs| - 1], today) + (if IsValidDate(txs[|txs| - 1].date, today) then 0 else 1)
  }

  function CountBlank(txs: seq<Transaction>): (n: nat)
    ensures n <= |txs|
  {
    if txs == [] then 0
    else CountBlank(txs[..|txs| - 1]) + (if IsBlank(txs[|txs| - 1].description) then 1 else 0)
  }

  function CountValid(txs: seq<Transaction>, today: Date): (n: nat)
    ensures n <= |txs|
  {
    if txs == [] then 0
    else CountValid(txs[..|txs| - 1], today) + (if IsValidTransaction(txs[|txs| - 1], today) then 1 else 0)
  }

  /** Every invalid date and every blank description takes a transaction out of the valid
      count, and all are valid exactly when there are neither. */
  lemma {:induction false} ValidCountBounds(txs: seq<Transaction>, today: Date)
    ensures CountValid(txs, today) + CountInvalidDates(txs, today) <= |txs|
    ensures CountValid(txs, today) + CountBlank(txs) <= |txs|
    ensures CountValid(txs, today) == |txs| <==> CountInvalidDates(txs, today) == 0 && CountBlank(txs) == 0
    decreases |txs|
  {
    if txs != [] {
      ValidCountBounds(txs[..|txs| - 1], today);
    }
  }

  /** The warnings `validate_transaction_data` can add. */
  datatype StatsWarning = InvalidDates(count: nat) | ManyZeroAmounts(count: nat) | EmptyDescriptions(count: nat)

  function WarningText(w: StatsWarning): string
  {
    match w
    case InvalidDates(n) => NatToString(n) + " transactions have invalid dates"
    case ManyZeroAmounts(n) => "High number of zero-amount transactions: " + NatToString(n)
    case EmptyDescriptions(n) => NatToString(n) + " transactions have empty descriptions"
  }

  function WarningTexts(ws: seq<StatsWarning>): (r: seq<string>)
    ensures |r| == |ws|
  {
    if ws == [] then [] else WarningTexts(ws[..|ws| - 1]) + [WarningText(ws[|ws| - 1])]
  }

  lemma WarningTextsSnoc(ws: seq<StatsWarning>, w: StatsWarning)
    ensures WarningTexts(ws + [w]) == WarningTexts(ws) + [WarningText(w)]
  {
    assert (ws + [w])[..|ws|] == ws;
  }

  /** More than 5% of the transactions have a zero amount (`zeros > total * 0.05`). */
  predicate ManyZeros(zeros: nat, total: nat)
  {
    20 * zeros > total
  }

  /** The warnings raised, in the order the checks run. */
  function StatsWarnings(total: nat, invalidDates: nat, zeros: nat, empties: nat): (ws: seq<StatsWarning>)
    ensures |ws| <= 3
  {
    (if invalidDates > 0 then [InvalidDates(invalidDates)] else [])
    + (if ManyZeros(zeros, total) then [ManyZeroAmounts(zeros)] else [])
    + (if empties > 0 then [EmptyDescriptions(empties)] else [])
  }

  datatype ValidationStats = ValidationStats(
    total: nat, valid: nat, invalidDates: nat, zeroAmounts: nat, emptyDescriptions: nat,
    warnings: seq<string>)

  /** The statistics `validate_transaction_data` reports. */
  function StatsOf(txs: seq<Transaction>, today: Date): (r: ValidationStats)
    ensures r.total == |txs| && r.valid <= r.total
  {
    var invalid := CountInvalidDates(txs, today);
    var zeros := BaseParser.ZeroCount(txs);
    var empties := CountBlank(txs);
    ValidationStats(|txs|, CountValid(txs, today), invalid, zeros, empties,
      WarningTexts(StatsWarnings(|txs|, invalid, zeros, empties)))
  }

  /** Each warning is raised exactly when its count calls for it, with that count. */
  lemma StatsWarningsExactly(txs: seq<Transaction>, today: Date)
    ensures var ws := StatsWarnings(|txs|, CountInvalidDates(txs, today), BaseParser.ZeroCount(txs), CountBlank(txs));
      && (forall n :: InvalidDates(n) in ws <==> n == CountInvalidDates(txs, today) && n > 0)
      && (forall n :: ManyZeroAmounts(n) in ws <==> n == BaseParser.ZeroCount(txs) && ManyZeros(n, |txs|))
      && (forall n :: EmptyDescriptions(n) in ws <==> n == CountBlank(txs) && n > 0)
  {
  }

  /** The counting loop of `validate_transaction_data`. */
  method Tally(txs: seq<Transaction>, today: Date) returns (valid: nat, invalid: nat, zeros: nat, empties: nat)
    ensures valid == CountValid(txs, today) && invalid == CountInvalidDates(txs, today)
    ensures zeros == BaseParser.ZeroCount(txs) && empties == CountBlank(txs)
  {
    valid, invalid, zeros, empties := 0, 0, 0, 0;
    var i := 0;
    while i < |txs|
      invariant 0 <= i <= |txs|
      invariant valid == CountValid(txs[..i], today) && invalid == CountInvalidDates(txs[..i], today)
      invariant zeros == BaseParser.ZeroCount(txs[..i]) && empties == CountBlank(txs[..i])
    {
      assert txs[..i + 1][..i] == txs[..i];
      var t := txs[i];
      var isValid := true;
      if !IsValidDate(t.date, today) {
        invalid := invalid + 1;
        isValid := false;
      }
      if t.amount == 0.0 {
        zeros := zeros + 1;
      }
      if IsBlank(t.description) {
        empties := empties + 1;
        isValid := false;
      }
      if isValid {
        valid := valid + 1;
      }
      i := i + 1;
    }
    assert txs[..i] == txs;
  }

  /** `validate_transaction_data`: the counters, then the warnings they call for. */
  method ValidateTransactionData(txs: seq<Transaction>, today: Date) returns (stats: ValidationStats)
    ensures stats == StatsOf(txs, today)
  {
    var valid, invalid, zeros, empties := Tally(txs, today);
    ghost var raised: seq<StatsWarning> := [];
    var warnings: seq<string> := [];
    if invalid > 0 {
      raised, warnings := [InvalidDates(invalid)], [WarningText(InvalidDates(invalid))];
    }
    if 20 * zeros > |txs| {
      WarningTextsSnoc(raised, ManyZeroAmounts(zeros));
      raised, warnings := raised + [ManyZeroAmounts(zeros)], warnings + [WarningText(ManyZeroAmounts(zeros))];
    }
    if empties > 0 {
      WarningTextsSnoc(raised, EmptyDescriptions(empties));
      raised, warnings := raised + [EmptyDescriptions(empties)], warnings + [WarningText(EmptyDescriptions(empties))];
    }
    assert raised == StatsWarnings(|txs|, invalid, zeros, empties);
    stats := ValidationStats(|txs|, valid, invalid, zeros, empties, warnings);
  }
}
