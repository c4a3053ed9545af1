// The fragment of Python's `re` semantics that the statement pipeline uses,
// over patterns written out as data.  A pattern is a top-level alternation of
// branches; a branch is a sequence of pieces: literals, repeated character
// classes (greedy or lazy, with bounds), groups of alternative branches
// (optionally skippable), capture marks and the `^` / `$` anchors.  Matching
// backtracks in Python's order: greedy repetition tries the longest run first,
// lazy repetition the shortest, alternatives left to right, and an optional
// group is tried before it is skipped.  `search` takes the leftmost start,
// `findall` and `sub` take non-overlapping matches left to right.
module Rx {
  import opened Wrappers
  import opened Text

  datatype Cls =
    | Digit           // \d
    | Space           // \s
    | Letter          // [A-Za-z]
    | Word            // \w
    | NotNewline      // .  and  [^\n]
    | OneOf(cs: string)

  datatype Piece =
    | Lit(text: string)
    | Rep(cls: Cls, lo: nat, hi: nat, bounded: bool, lazy: bool)
    | Group(alts: seq<Branch>, optional: bool)
    | Mark(slot: nat)
    | Bol
    | Eol

  datatype Branch = Branch(pieces: seq<Piece>)

  /** A compiled pattern: its top-level alternatives and the IGNORECASE flag. */
  datatype Regex = Regex(alts: seq<Branch>, icase: bool)

  datatype Hit = Hit(end: nat, marks: map<nat, nat>)

  datatype Match = Match(start: nat, end: nat, marks: map<nat, nat>)

  // Shorthands for writing patterns.
  function One(c: Cls): Piece { Rep(c, 1, 1, true, false) }
  function Opt(c: Cls): Piece { Rep(c, 0, 1, true, false) }
  function Star(c: Cls): Piece { Rep(c, 0, 0, false, false) }
  function Plus(c: Cls): Piece { Rep(c, 1, 0, false, false) }
  function LazyPlus(c: Cls): Piece { Rep(c, 1, 0, false, true) }
  function Times(c: Cls, lo: nat, hi: nat): Piece { Rep(c, lo, hi, true, false) }
  /** Capture group `g` opens at slot 2g and closes at slot 2g+1. */
  function Open(g: nat): Piece { Mark(2 * g) }
  function Close(g: nat): Piece { Mark(2 * g + 1) }
  function Pattern(ps: seq<Piece>, icase: bool): Regex { Regex([Branch(ps)], icase) }
  /** A one-branch pattern compiled with IGNORECASE. */
  function Ci(ps: seq<Piece>): Regex { Pattern(ps, true) }
  /** Capture group `g` around `ps`. */
  function Grp(g: nat, ps: seq<Piece>): seq<Piece> { [Open(g)] + ps + [Close(g)] }
  /** A top-level alternation of plain literals, `a|b|c`. */
  function AnyOf(ws: seq<string>, icase: bool): Regex
  {
    Regex(seq(|ws|, k requires 0 <= k < |ws| => Branch([Lit(ws[k])])), icase)
  }

  predicate ClassHas(c: Cls, ch: char, icase: bool)
  {
    match c
    case Digit => IsDigit(ch)
    case Space => IsSpace(ch)
    case Letter => IsAsciiLetter(ch)
    case Word => IsWordChar(ch)
    case NotNewline => ch != '\n'
    case OneOf(cs) => ch in cs || (icase && (LowerChar(ch) in cs || UpperChar(ch) in cs))
  }

  predicate CharEq(a: char, b: char, icase: bool)
  {
    a == b || (icase && LowerChar(a) == LowerChar(b))
  }

  predicate LitAt(t: string, s: string, i: nat, icase: bool)
  {
    i + |t| <= |s| && forall k :: 0 <= k < |t| ==> CharEq(s[i + k], t[k], icase)
  }

  function SeqSize(ps: seq<Piece>): nat
  {
    if ps == [] then 0 else PieceSize(ps[0]) + SeqSize(ps[1..])
  }

  function PieceSize(p: Piece): nat
  {
    match p
    case Group(alts, _) => 1 + AltsSize(alts)
    case _ => 1
  }

  function AltsSize(alts: seq<Branch>): nat
  {
    if alts == [] then 0 else SeqSize(alts[0].pieces) + AltsSize(alts[1..])
  }

  lemma {:induction false} AltSmaller(alts: seq<Branch>, j: nat)
    requires j < |alts|
    ensures SeqSize(alts[j].pieces) <= AltsSize(alts)
  {
    if 0 < j { AltSmaller(alts[1..], j - 1); }
  }

  lemma {:induction false} SizeAppend(a: seq<Piece>, b: seq<Piece>)
    ensures SeqSize(a + b) == SeqSize(a) + SeqSize(b)
  {
    if a == [] {
      assert a + b == b;
    } else {
      assert (a + b)[1..] == a[1..] + b;
      SizeAppend(a[1..], b);
    }
  }

  lemma SizeCons(ps: seq<Piece>)
    requires ps != []
    ensures SeqSize(ps[1..]) < SeqSize(ps)
    ensures ps[0].Group? ==> SeqSize(ps) == 1 + AltsSize(ps[0].alts) + SeqSize(ps[1..])
  {
  }

  /** Length of the run of `c`-characters starting at `i`, at most `cap`. */
  function RunLen(c: Cls, s: string, i: nat, icase: bool, cap: nat): (n: nat)
    requires i <= |s|
    ensures i + n <= |s| && n <= cap
    ensures forall k :: i <= k < i + n ==> ClassHas(c, s[k], icase)
    decreases cap
  {
    if cap > 0 && i < |s| && ClassHas(c, s[i], icase) then 1 + RunLen(c, s, i + 1, icase, cap - 1) else 0
  }

  /** The first way, in Python's backtracking order, in which `ps` matches `s` from `i`. */
  function MatchAt(ps: seq<Piece>, s: string, i: nat, m: map<nat, nat>, icase: bool): (r: Option<Hit>)
    requires i <= |s|
    ensures r.Some? ==> i <= r.value.end <= |s|
    decreases SeqSize(ps), 1, 0
  {
    if ps == [] then Some(Hit(i, m))
    else
      SizeCons(ps);
      match ps[0]
      case Lit(t) =>
        if LitAt(t, s, i, icase) then MatchAt(ps[1..], s, i + |t|, m, icase) else None
      case Rep(c, lo, hi, bounded, lazy) =>
        var n := RunLen(c, s, i, icase, if bounded then hi else |s| - i);
        if n < lo then None
        else if lazy then TryLazy(ps[1..], s, i, m, icase, lo, n)
        else TryGreedy(ps[1..], s, i, m, icase, lo, n)
      case Group(alts, optional) => TryAlts(ps, 0, s, i, m, icase)
      case Mark(k) => MatchAt(ps[1..], s, i, m[k := i], icase)
      case Bol => if i == 0 then MatchAt(ps[1..], s, i, m, icase) else None
      case Eol =>
        if i == |s| || (i + 1 == |s| && s[i] == '\n') then MatchAt(ps[1..], s, i, m, icase) else None
  }

  /** Greedy repetition: `n` repetitions first, then fewer down to `lo`. */
  function TryGreedy(rest: seq<Piece>, s: string, i: nat, m: map<nat, nat>, icase: bool, lo: nat, n: nat): (r: Option<Hit>)
    requires lo <= n && i + n <= |s|
    ensures r.Some? ==> i <= r.value.end <= |s|
    decreases SeqSize(rest), 2, n - lo
  {
    match MatchAt(rest, s, i + n, m, icase)
    case Some(h) => Some(h)
    case None => if n == lo then None else TryGreedy(rest, s, i, m, icase, lo, n - 1)
  }

  /** Lazy repetition: `k` repetitions first, then more up to `n`. */
  function TryLazy(rest: seq<Piece>, s: string, i: nat, m: map<nat, nat>, icase: bool, k: nat, n: nat): (r: Option<Hit>)
    requires k <= n && i + n <= |s|
    ensures r.Some? ==> i <= r.value.end <= |s|
    decreases SeqSize(rest), 2, n - k
  {
    match MatchAt(rest, s, i + k, m, icase)
    case Some(h) => Some(h)
    case None => if k == n then None else TryLazy(rest, s, i, m, icase, k + 1, n)
  }

  /** A group: its alternatives from the `j`-th on, then (if optional) skipping it. */
  function TryAlts(ps: seq<Piece>, j: nat, s: string, i: nat, m: map<nat, nat>, icase: bool): (r: Option<Hit>)
    requires ps != [] && ps[0].Group? && j <= |ps[0].alts| && i <= |s|
    ensures r.Some? ==> i <= r.value.end <= |s|
    decreases SeqSize(ps), 0, |ps[0].alts| - j
  {
    var alts := ps[0].alts;
    SizeCons(ps);
    if j < |alts| then
      SizeAppend(alts[j].pieces, ps[1..]);
      AltSmaller(alts, j);
      match MatchAt(alts[j].pieces + ps[1..], s, i, m, icase)
      case Some(h) => Some(h)
      case None => TryAlts(ps, j + 1, s, i, m, icase)
    else if ps[0].optional then MatchAt(ps[1..], s, i, m, icase)
    else None
  }

  /** The first top-level alternative that matches at `i`. */
  function MatchAltsAt(alts: seq<Branch>, s: string, i: nat, icase: bool): (r: Option<Hit>)
    requires i <= |s|
    ensures r.Some? ==> i <= r.value.end <= |s|
  {
    if alts == [] then None
    else match MatchAt(alts[0].pieces, s, i, map[], icase)
      case Some(h) => Some(h)
      case None => MatchAltsAt(alts[1..], s, i, icase)
  }

  predicate MatchesAt(re: Regex, s: string, i: nat)
    requires i <= |s|
  {
    MatchAltsAt(re.alts, s, i, re.icase).Some?
  }

  /** Python's `pattern.match(s)`: a match that starts at 0. */
  function MatchStart(re: Regex, s: string): (r: Option<Match>)
    ensures r.Some? ==> r.value.start == 0 && r.value.end <= |s|
  {
    match MatchAltsAt(re.alts, s, 0, re.icase)
    case None => None
    case Some(h) => Some(Match(0, h.end, h.marks))
  }

  /** Python's `pattern.search(s, from)`: the leftmost start at or after `from`. */
  function SearchFrom(re: Regex, s: string, from: nat): (r: Option<Match>)
    requires from <= |s|
    ensures r.Some? ==> from <= r.value.start <= r.value.end <= |s| && MatchesAt(re, s, r.value.start)
    ensures r.Some? ==> forall j :: from <= j < r.value.start ==> !MatchesAt(re, s, j)
    ensures r.None? ==> forall j :: from <= j <= |s| ==> !MatchesAt(re, s, j)
    decreases |s| - from
  {
    match MatchAltsAt(re.alts, s, from, re.icase)
    case Some(h) => Some(Match(from, h.end, h.marks))
    case None => if from == |s| then None else SearchFrom(re, s, from + 1)
  }

  function Search(re: Regex, s: string): (r: Option<Match>)
    ensures r.Some? ==> r.value.start <= r.value.end <= |s|
  {
    SearchFrom(re, s, 0)
  }

  predicate Found(re: Regex, s: string)
  {
    Search(re, s).Some?
  }

  /** Where the next `findall`/`sub` scan resumes after `mt` (one past an empty match). */
  function Resume(mt: Match): nat
  {
    if mt.end > mt.start then mt.end else mt.start + 1
  }

  /** Python's `pattern.finditer(s)` from `from`: non-overlapping matches, left to right. */
  function FindAllFrom(re: Regex, s: string, from: nat): (r: seq<Match>)
    requires from <= |s|
    ensures forall k :: 0 <= k < |r| ==> from <= r[k].start <= r[k].end <= |s|
    ensures forall k :: 0 <= k < |r| - 1 ==> r[k].end <= r[k + 1].start
    decreases |s| - from
  {
    match SearchFrom(re, s, from)
    case None => []
    case Some(mt) =>
      if Resume(mt) > |s| then [mt] else [mt] + FindAllFrom(re, s, Resume(mt))
  }

  function FindAll(re: Regex, s: string): seq<Match>
  {
    FindAllFrom(re, s, 0)
  }

  /** `len(pattern.findall(s))`. */
  function CountAll(re: Regex, s: string): nat
  {
    |FindAll(re, s)|
  }

  /** Python's `pattern.sub(rep, s)` on `s[from..]` with a literal replacement. */
  function SubFrom(re: Regex, s: string, from: nat, rep: string): string
    requires from <= |s|
    decreases |s| - from
  {
    match SearchFrom(re, s, from)
    case None => s[from..]
    case Some(mt) =>
      s[from..mt.start] + rep
      + (if mt.end > mt.start then SubFrom(re, s, mt.end, rep)
         else if mt.start < |s| then [s[mt.start]] + SubFrom(re, s, mt.start + 1, rep)
         else [])
  }

  function Sub(re: Regex, s: string, rep: string): string
  {
    SubFrom(re, s, 0, rep)
  }

  lemma SubNoMatch(re: Regex, s: string, rep: string)
    requires !Found(re, s)
    ensures Sub(re, s, rep) == s
  {
    assert s[0..] == s;
  }

  /** `s` after `re.sub(p, '', ...)` with each pattern of `res` in turn. */
  function SubEach(res: seq<Regex>, s: string): string
  {
    if res == [] then s else Sub(res[|res| - 1], SubEach(res[..|res| - 1], s), "")
  }

  /** Capture group `g` of a match (group 0 is the whole match); None if it did not take part. */
  function Capture(mt: Match, s: string, g: nat): Option<string>
  {
    if g == 0 then (if mt.start <= mt.end <= |s| then Some(s[mt.start..mt.end]) else None)
    else if 2 * g in mt.marks && 2 * g + 1 in mt.marks && mt.marks[2 * g] <= mt.marks[2 * g + 1] <= |s|
    then Some(s[mt.marks[2 * g]..mt.marks[2 * g + 1]])
    else None
  }

  /** Group `g` of `re.search(s)`, or None. */
  function SearchGroup(re: Regex, s: string, g: nat): Option<string>
  {
    match Search(re, s)
    case None => None
    case Some(mt) => Capture(mt, s, g)
  }

  /** `re.match` when `anchored`, `re.search` otherwise. */
  predicate Hits(re: Regex, s: string, anchored: bool)
  {
    if anchored then MatchStart(re, s).Some? else Found(re, s)
  }

  /** The first pattern of a table, from the `k`-th on, that hits `s`. */
  function FirstHitFrom(res: seq<Regex>, s: string, anchored: bool, k: nat): (r: Option<nat>)
    requires k <= |res|
    ensures r.Some? ==> k <= r.value < |res| && Hits(res[r.value], s, anchored)
    ensures r.Some? ==> forall j :: k <= j < r.value ==> !Hits(res[j], s, anchored)
    ensures r.None? <==> forall j :: k <= j < |res| ==> !Hits(res[j], s, anchored)
    decreases |res| - k
  {
    if k == |res| then None
    else if Hits(res[k], s, anchored) then Some(k)
    else FirstHitFrom(res, s, anchored, k + 1)
  }

  function FirstHit(res: seq<Regex>, s: string, anchored: bool): (r: Option<nat>)
    ensures r.Some? ==> r.value < |res| && Hits(res[r.value], s, anchored)
    ensures r.Some? ==> forall j :: 0 <= j < r.value ==> !Hits(res[j], s, anchored)
    ensures r.None? <==> forall j :: 0 <= j < |res| ==> !Hits(res[j], s, anchored)
  {
    FirstHitFrom(res, s, anchored, 0)
  }

  /** Some pattern of the table hits `s`. */
  predicate AnyHit(res: seq<Regex>, s: string, anchored: bool)
  {
    FirstHit(res, s, anchored).Some?
  }

  /** Group `g` of the search match of the first pattern of the table that is found in `s`. */
  function FirstGroup(res: seq<Regex>, s: string, g: nat): (r: Option<string>)
    ensures r.Some? ==> AnyHit(res, s, false)
  {
    match FirstHit(res, s, false)
    case None => None
    case Some(k) => SearchGroup(res[k], s, g)
  }

  /** Group `g` of `re.match(s)`, or None. */
  function MatchGroup(re: Regex, s: string, g: nat): Option<string>
  {
    match MatchStart(re, s)
    case None => None
    case Some(mt) => Capture(mt, s, g)
  }

  /** Words separated by `\s*`, as in `chase\s*card\s*services`. */
  function Spaced(ws: seq<string>): seq<Piece>
  {
    if ws == [] then [] else if |ws| == 1 then [Lit(ws[0])] else [Lit(ws[0]), Star(Space)] + Spaced(ws[1..])
  }

  /** Words separated by `\s+`, as in `payment\s+thank\s+you`. */
  function Spaced1(ws: seq<string>): seq<Piece>
  {
    if ws == [] then [] else if |ws| == 1 then [Lit(ws[0])] else [Lit(ws[0]), Plus(Space)] + Spaced1(ws[1..])
  }

  /** `pattern.findall(s)` for a pattern whose result is group `g`: that group of every
      match, or "" where the group did not take part. */
  function FindAllGroup(re: Regex, s: string, g: nat): (r: seq<string>)
    ensures |r| == CountAll(re, s)
  {
    var ms := FindAll(re, s);
    seq(|ms|, k requires 0 <= k < |ms| => Capture(ms[k], s, g).GetOr(""))
  }

  /** A pattern `^w...` that matches at the start of `s` has `w` there. */
  lemma MatchStartLiteral(w: string, rest: seq<Piece>, s: string, icase: bool)
    requires MatchStart(Pattern([Bol, Lit(w)] + rest, icase), s).Some?
    ensures LitAt(w, s, 0, icase)
  {
    var ps := [Bol, Lit(w)] + rest;
    var alts := [Branch(ps)];
    assert Pattern(ps, icase).alts == alts && alts[0].pieces == ps && alts[1..] == [];
    assert MatchAltsAt(alts[1..], s, 0, icase) == None;
    assert MatchAltsAt(alts, s, 0, icase).Some?;
    assert MatchAt(ps, s, 0, map[], icase).Some?;
    assert ps[0] == Bol && ps[1..] == [Lit(w)] + rest;
    assert MatchAt(ps, s, 0, map[], icase) == MatchAt(ps[1..], s, 0, map[], icase);
    assert ps[1..][0] == Lit(w);
    assert MatchAt(ps[1..], s, 0, map[], icase).Some?;
  }

  /** Greedy repetition finds a continuation at any run length it will try. */
  lemma {:induction false} GreedyFinds(rest: seq<Piece>, s: string, i: nat, m: map<nat, nat>, icase: bool,
                                       lo: nat, n: nat, k: nat)
    requires lo <= k <= n && i + n <= |s|
    requires MatchAt(rest, s, i + k, m, icase).Some?
    ensures TryGreedy(rest, s, i, m, icase, lo, n).Some?
    decreases n
  {
    if MatchAt(rest, s, i + n, m, icase).None? {
      GreedyFinds(rest, s, i, m, icase, lo, n - 1, k);
    }
  }

  /** Text matching `a + b` at `i` matches `a` at `i` and `b` right after it. */
  lemma LitAtSplit(a: string, b: string, s: string, i: nat, icase: bool)
    requires LitAt(a + b, s, i, icase)
    ensures LitAt(a, s, i, icase) && LitAt(b, s, i + |a|, icase)
  {
    forall k | 0 <= k < |a| ensures CharEq(s[i + k], a[k], icase) {
      assert (a + b)[k] == a[k];
    }
    forall k | 0 <= k < |b| ensures CharEq(s[i + |a| + k], b[k], icase) {
      assert (a + b)[|a| + k] == b[k];
    }
  }

  /** `\s+` then `rest` matches at `i` when a blank at `i` is followed by a match of `rest`. */
  lemma SpaceThen(rest: seq<Piece>, s: string, i: nat, icase: bool)
    requires LitAt(" ", s, i, icase) && MatchAt(rest, s, i + 1, map[], icase).Some?
    ensures MatchAt([Plus(Space)] + rest, s, i, map[], icase).Some?
  {
    assert CharEq(s[i + 0], " "[0], icase);
    assert IsSpace(s[i]);
    var ps := [Plus(Space)] + rest;
    assert ps[0] == Plus(Space) && ps[1..] == rest;
    var n := RunLen(Space, s, i, icase, |s| - i);
    assert n >= 1;
    GreedyFinds(rest, s, i, map[], icase, 1, n, 1);
  }

  /** `^w rest` matches at the start of `s` when `w` is there and `rest` matches after it. */
  lemma MatchStartOfLiteral(w: string, rest: seq<Piece>, s: string, icase: bool)
    requires LitAt(w, s, 0, icase) && MatchAt(rest, s, |w|, map[], icase).Some?
    ensures MatchStart(Pattern([Bol, Lit(w)] + rest, icase), s).Some?
  {
    var ps := [Bol, Lit(w)] + rest;
    var alts := [Branch(ps)];
    assert Pattern(ps, icase).alts == alts && alts[0].pieces == ps;
    assert ps[0] == Bol && ps[1..] == [Lit(w)] + rest;
    assert ps[1..][0] == Lit(w) && ps[1..][1..] == rest;
    assert MatchAt(ps[1..], s, 0, map[], icase).Some?;
    assert MatchAt(ps, s, 0, map[], icase).Some?;
  }

  /** The literal text that `rest` matches when it is made of `\s+` steps each followed by a
      literal word (the last step may stand alone): one blank for each `\s+`, then the word. */
  function SpacedText(rest: seq<Piece>): Option<string>
    decreases |rest|
  {
    if rest == [] then Some("")
    else if rest == [Plus(Space)] then Some(" ")
    else if |rest| >= 2 && rest[0] == Plus(Space) && rest[1].Lit? then
      match SpacedText(rest[2..])
      case None => None
      case Some(t) => Some(" " + rest[1].text + t)
    else None
  }

  /** The spaced text of `\s+v` is a blank and `v`. */
  lemma SpacedWord(v: string)
    ensures SpacedText([Plus(Space), Lit(v)]) == Some(" " + v)
  {
    var rest := [Plus(Space), Lit(v)];
    assert rest != [Plus(Space)] && rest[2..] == [];
    assert " " + v + "" == " " + v;
  }

  /** `rest` matches at `i` when its spaced text is there. */
  lemma {:induction false} SpacedMatches(rest: seq<Piece>, s: string, i: nat, icase: bool)
    requires i <= |s| && SpacedText(rest).Some? && LitAt(SpacedText(rest).value, s, i, icase)
    ensures MatchAt(rest, s, i, map[], icase).Some?
    decreases |rest|
  {
    if rest == [Plus(Space)] {
      SpaceThen([], s, i, icase);
      assert [Plus(Space)] + [] == rest;
    } else if rest != [] {
      var v := rest[1].text;
      var more := rest[2..];
      var tt := SpacedText(more).value;
      assert SpacedText(rest).value == " " + (v + tt);
      LitAtSplit(" ", v + tt, s, i, icase);
      LitAtSplit(v, tt, s, i + 1, icase);
      SpacedMatches(more, s, i + 1 + |v|, icase);
      assert ([Lit(v)] + more)[1..] == more;
      assert MatchAt([Lit(v)] + more, s, i + 1, map[], icase).Some?;
      SpaceThen([Lit(v)] + more, s, i, icase);
      assert [Plus(Space)] + ([Lit(v)] + more) == rest;
    }
  }

  /** The pattern `^w rest` matches a line that begins with `w` and then the spaced text of `rest`. */
  lemma LeadTextMatches(w: string, rest: seq<Piece>, s: string, icase: bool)
    requires SpacedText(rest).Some? && LitAt(w + SpacedText(rest).value, s, 0, icase)
    ensures MatchStart(Pattern([Bol, Lit(w)] + rest, icase), s).Some?
  {
    LitAtSplit(w, SpacedText(rest).value, s, 0, icase);
    SpacedMatches(rest, s, |w|, icase);
    MatchStartOfLiteral(w, rest, s, icase);
  }
}
