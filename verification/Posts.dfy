/** The chat log's posts: an answer that does not fit in one goes over several. Text is
    in UTF-16 code units, as JavaScript counts it. */
module Posts {

  type Text = seq<nat>

  const DISCORD_LIMIT := 2000
  const NEWLINE := 10
  const SPACE := 32

  /** The code units that `\s` matches. */
  predicate IsSpace(u: nat) {
    || 9 <= u <= 13 || u == 32 || u == 0xA0 || u == 0x1680 || 0x2000 <= u <= 0x200A
    || u == 0x2028 || u == 0x2029 || u == 0x202F || u == 0x205F || u == 0x3000 || u == 0xFEFF
  }

  predicate HighSurrogate(u: nat) { 0xD800 <= u <= 0xDBFF }

  predicate LowSurrogate(u: nat) { 0xDC00 <= u <= 0xDFFF }

  /** A cut here would put the halves of one character in two posts. */
  predicate SplitsPair(text: Text, cut: nat)
    requires cut <= |text|
  {
    0 < cut < |text| && HighSurrogate(text[cut - 1]) && LowSurrogate(text[cut])
  }

  function Units(s: string): Text { seq(|s|, i requires 0 <= i < |s| => s[i] as int) }

  function Digits(n: nat): (d: string)
    ensures |d| >= 1 && (n < 10 ==> |d| == 1) && (n < 100 ==> |d| <= 2) && (n >= 100 ==> |d| >= 3)
  {
    if n < 10 then [['0', '1', '2', '3', '4', '5', '6', '7', '8', '9'][n]]
    else Digits(n / 10) + [['0', '1', '2', '3', '4', '5', '6', '7', '8', '9'][n % 10]]
  }

  /** The decimal that digits read as. */
  function Value(d: string): int {
    if d == [] then 0 else 10 * Value(d[..|d| - 1]) + d[|d| - 1] as int - '0' as int
  }

  lemma {:induction false} DigitsRead(n: nat)
    ensures Value(Digits(n)) == n && (n > 0 ==> Digits(n)[0] != '0')
    ensures forall c :: c in Digits(n) ==> '0' <= c <= '9'
  {
    var d := Digits(n);
    if n >= 10 {
      DigitsRead(n / 10);
      assert d[..|d| - 1] == Digits(n / 10);
    } else {
      assert d[..0] == [];
    }
  }

  const SITE: string := "[isomux.com]"

  function SinglePost(text: Text, tag: Text): Text { Units(SITE) + tag + Units(" **Bot:**\n") + text }

  function Header(tag: Text, part: nat, parts: nat): Text {
    Units(SITE) + tag + Units(" **Bot (" + Digits(part) + "/" + Digits(parts) + "):**\n")
  }

  /** A header names the site and the conversation, and then the part and of how many. */
  lemma HeaderReads(tag: Text, part: nat, parts: nat)
    ensures Header(tag, part, parts) ==
            Units("[isomux.com]") + tag + Units(" **Bot (") + Units(Digits(part)) + Units("/") + Units(Digits(parts)) + Units("):**\n")
    ensures Value(Digits(part)) == part && Value(Digits(parts)) == parts
  {
    DigitsRead(part);
    DigitsRead(parts);
    assert Units(" **Bot (" + Digits(part) + "/" + Digits(parts) + "):**\n")
           == Units(" **Bot (") + Units(Digits(part)) + Units("/") + Units(Digits(parts)) + Units("):**\n");
  }

  /** What is left of a post beside a header with two-digit numbers. */
  function Budget(tag: Text): int { DISCORD_LIMIT - |Header(tag, 99, 99)| }

  /** The last place of a unit, no later than `before`; -1 when there is none. */
  function LastIndexOf(text: Text, unit: nat, before: int): (at: int)
    requires before < |text|
    ensures -1 <= at <= before || at == -1
    ensures at >= 0 ==> text[at] == unit
    ensures forall i :: 0 <= i <= before && i > at ==> text[i] != unit
    decreases before + 1
  {
    if before < 0 then -1 else if text[before] == unit then before else LastIndexOf(text, unit, before - 1)
  }

  /** Where the text would break: the last newline of the second half, else the last
      space of it, else the end, but not inside a character. */
  function BreakAt(rest: Text, budget: nat): (at: nat)
    requires 2 <= budget < |rest|
    ensures 0 < at <= budget && 2 * at >= budget
    ensures !SplitsPair(rest, at)
  {
    var line := LastIndexOf(rest, NEWLINE, budget);
    var space := LastIndexOf(rest, SPACE, budget);
    if 2 * line >= budget then line
    else if 2 * space >= budget then space
    else if HighSurrogate(rest[budget - 1]) then budget - 1 else budget
  }

  /** That is: a newline of the second half, and the last one; without one, the last space
      of it; without either, the end, or one before it when that is a high surrogate. */
  lemma BreakIs(rest: Text, budget: nat)
    requires 2 <= budget < |rest|
    ensures var at := BreakAt(rest, budget);
            if exists i :: budget <= 2 * i && i <= budget && rest[i] == 10
            then rest[at] == 10 && budget <= 2 * at && at <= budget && forall i :: at < i <= budget ==> rest[i] != 10
            else if exists i :: budget <= 2 * i && i <= budget && rest[i] == 32
            then rest[at] == 32 && budget <= 2 * at && at <= budget && forall i :: at < i <= budget ==> rest[i] != 32
            else at == if 0xD800 <= rest[budget - 1] <= 0xDBFF then budget - 1 else budget
  {
  }

  /** The cut goes before the whitespace that the break would leave at the part's end,
      unless that takes more than half a post. */
  predicate GoodCut(rest: Text, budget: nat, cut: nat)
    requires 2 <= budget < |rest|
  {
    && budget / 2 <= cut <= BreakAt(rest, budget)
    && (forall i :: cut <= i < BreakAt(rest, budget) ==> IsSpace(rest[i]))
    && (2 * cut > budget ==> !IsSpace(rest[cut - 1]))
    && !SplitsPair(rest, cut)
  }

  method CutOf(rest: Text, budget: nat) returns (cut: nat)
    requires 2 <= budget < |rest|
    ensures GoodCut(rest, budget, cut)
  {
    var c := LastIndexOf(rest, NEWLINE, budget);
    if 2 * c < budget { c := LastIndexOf(rest, SPACE, budget); }
    if 2 * c < budget {
      c := budget;
      if HighSurrogate(rest[c - 1]) { c := c - 1; }
    }
    assert c == BreakAt(rest, budget);
    while 2 * c > budget && IsSpace(rest[c - 1])
      invariant budget / 2 <= c <= BreakAt(rest, budget)
      invariant forall i :: c <= i < BreakAt(rest, budget) ==> IsSpace(rest[i])
      invariant !SplitsPair(rest, c)
      decreases c
    {
      c := c - 1;
    }
    cut := c;
  }

  /** A text has one good cut. */
  lemma GoodCutIsUnique(rest: Text, budget: nat, a: nat, b: nat)
    requires 2 <= budget < |rest| && GoodCut(rest, budget, a) && GoodCut(rest, budget, b)
    ensures a == b
  {
    var atA, atB := IsSpace(rest[a - 1]), IsSpace(rest[b - 1]);
  }

  /** A part is under half the budget exactly when the budget is odd and the text from the
      middle to its break is all whitespace. */
  lemma UnderHalfIff(rest: Text, budget: nat, cut: nat)
    requires 2 <= budget < |rest| && GoodCut(rest, budget, cut)
    ensures 2 * cut < budget <==>
            budget % 2 == 1 && forall i :: budget / 2 <= i < BreakAt(rest, budget) ==> IsSpace(rest[i])
  {
    hide BreakAt;
    if budget % 2 == 1 && 2 * cut > budget { assert budget / 2 <= cut - 1 && !IsSpace(rest[cut - 1]); }
  }

  /** So every part takes half the budget, of any text, if and only if the budget is even;
      of spaces alone an odd one is cut just under its half. */
  lemma HalfIffEven(budget: nat)
    requires budget >= 2
    ensures (forall rest: Text, cut: nat :: |rest| > budget && GoodCut(rest, budget, cut) ==> 2 * cut >= budget) <==> budget % 2 == 0
  {
    hide GoodCut;
    forall rest: Text, cut: nat | |rest| > budget && GoodCut(rest, budget, cut) && budget % 2 == 0 ensures 2 * cut >= budget {
      UnderHalfIff(rest, budget, cut);
    }
    if budget % 2 == 1 { SpacesAreCutUnder(budget); }
  }

  lemma SpacesAreCutUnder(budget: nat)
    requires budget >= 2 && budget % 2 == 1
    ensures GoodCut(seq(budget + 1, (_: nat) => SPACE), budget, budget / 2)
  {
  }

  // ---------------------------------------------------------------------- the parts

  function Joined(parts: seq<Text>): Text {
    if parts == [] then [] else Joined(parts[..|parts| - 1]) + parts[|parts| - 1]
  }

  /** Each part but the last is what a good cut takes of what is left there. */
  ghost predicate WellCut(parts: seq<Text>, text: Text, budget: nat)
    requires budget >= 2
  {
    && Joined(parts) <= text
    && forall k :: 0 <= k < |parts| ==> PartFrom(text, budget, |Joined(parts[..k])|, parts[k])
  }

  ghost predicate PartFrom(text: Text, budget: nat, from: nat, part: Text)
    requires budget >= 2
  {
    && from + budget < |text| && budget / 2 <= |part| <= budget
    && part == text[from..from + |part|]
    && GoodCut(text[from..], budget, |part|) && !SplitsPair(text, from + |part|)
  }

  lemma {:induction false} JoinedLength(parts: seq<Text>, least: nat)
    requires forall k :: 0 <= k < |parts| ==> |parts[k]| >= least
    ensures |Joined(parts)| >= |parts| * least
  {
    if parts != [] {
      var n := |parts| - 1;
      JoinedLength(parts[..n], least);
      assert |parts| * least == n * least + least;
    }
  }

  lemma GoodCutIs(rest: Text, budget: nat, cut: nat)
    requires 2 <= budget < |rest| && GoodCut(rest, budget, cut)
    ensures budget / 2 <= cut <= budget && !SplitsPair(rest, cut)
  {
  }

  lemma SuffixIs(before: Text, rest: Text, cut: nat)
    requires 0 < cut < |rest|
    ensures (before + rest)[|before|..] == rest
    ensures (before + rest)[|before|..|before| + cut] == rest[..cut]
  {
  }

  lemma SuffixSplits(before: Text, rest: Text, cut: nat)
    requires 0 < cut < |rest| && !SplitsPair(rest, cut)
    ensures !SplitsPair(before + rest, |before| + cut)
  {
    assert (before + rest)[|before| + cut - 1] == rest[cut - 1] && (before + rest)[|before| + cut] == rest[cut];
  }

  lemma CutIsPart(before: Text, rest: Text, budget: nat, cut: nat)
    requires 2 <= budget < |rest| && GoodCut(rest, budget, cut)
    ensures PartFrom(before + rest, budget, |before|, rest[..cut])
  {
    hide GoodCut, SplitsPair;
    GoodCutIs(rest, budget, cut);
    SuffixIs(before, rest, cut);
    SuffixSplits(before, rest, cut);
  }

  lemma JoinedGrows(parts: seq<Text>, last: Text)
    ensures Joined(parts + [last]) == Joined(parts) + last
  {
    assert (parts + [last])[..|parts|] == parts;
  }

  lemma CutGrows(parts: seq<Text>, text: Text, rest: Text, budget: nat, cut: nat)
    requires budget >= 2 && WellCut(parts, text, budget) && text == Joined(parts) + rest
    requires budget < |rest| && GoodCut(rest, budget, cut)
    ensures WellCut(parts + [rest[..cut]], text, budget) && text == Joined(parts + [rest[..cut]]) + rest[cut..]
  {
    hide PartFrom, GoodCut, Joined;
    GoodCutIs(rest, budget, cut);
    var next := parts + [rest[..cut]];
    CutIsPart(Joined(parts), rest, budget, cut);
    JoinedGrows(parts, rest[..cut]);
    JoinedSplits(Joined(parts), rest, cut);
    forall k | 0 <= k < |next| ensures PartFrom(text, budget, |Joined(next[..k])|, next[k]) {
      assert next[..k] == parts[..k];
      if k == |parts| { assert parts[..k] == parts; }
    }
  }

  lemma JoinedSplits(before: Text, rest: Text, cut: nat)
    requires cut <= |rest|
    ensures before + rest == (before + rest[..cut]) + rest[cut..]
    ensures before + rest[..cut] <= before + rest
  {
    assert rest == rest[..cut] + rest[cut..];
  }

  // ---------------------------------------------------------------------- the posts

  method BotPosts(text: Text, tag: Text) returns (posts: seq<Text>, parts: seq<Text>)
    requires Budget(tag) >= 2
    ensures if |SinglePost(text, tag)| <= DISCORD_LIMIT then posts == [SinglePost(text, tag)]
            else Posted(posts, parts, text, tag)
  {
    var single := SinglePost(text, tag);
    parts := [];
    if |single| <= DISCORD_LIMIT { return [single], []; }
    var budget := Budget(tag);
    var cuts := [];
    var rest := text;
    while |rest| > budget
      invariant WellCut(cuts, text, budget) && text == Joined(cuts) + rest
      decreases |rest|
    {
      var cut := CutOf(rest, budget);
      CutGrows(cuts, text, rest, budget, cut);
      cuts := cuts + [rest[..cut]];
      rest := rest[cut..];
    }
    var all := cuts + [rest];
    assert all[..|all| - 1] == cuts;
    parts := all;
    posts := seq(|all|, i requires 0 <= i < |all| => Header(tag, i + 1, |all|) + all[i]);
  }

  /** The posts are the parts under their headers, the parts are the text, and all but
      the last are well cut. */
  ghost predicate Posted(posts: seq<Text>, parts: seq<Text>, text: Text, tag: Text)
    requires Budget(tag) >= 2
  {
    && |posts| == |parts| >= 1
    && Joined(parts) == text
    && WellCut(parts[..|parts| - 1], text, Budget(tag)) && |parts[|parts| - 1]| <= Budget(tag)
    && forall i :: 0 <= i < |posts| ==> posts[i] == Header(tag, i + 1, |parts|) + parts[i]
  }

  /** No more posts than half budgets in the text, and, up to 99 of them, none over
      Discord's limit. */
  lemma PostsFit(posts: seq<Text>, parts: seq<Text>, text: Text, tag: Text, i: nat)
    requires Budget(tag) >= 2 && Posted(posts, parts, text, tag) && i < |posts|
    ensures (|posts| - 1) * (Budget(tag) / 2) <= |text|
    ensures |posts| <= 99 ==> |posts[i]| <= DISCORD_LIMIT
  {
    hide Header, PartFrom, Digits, Joined, Posted;
    var front := FrontOf(posts, parts, text, tag);
    JoinedLength(front, Budget(tag) / 2);
    PostOverIff(posts, parts, text, tag, i);
    PartsFit(posts, parts, text, tag, i);
  }

  /** Exactly when one is over: its part and its two numbers take more than the budget and
      the four digits that it leaves for them. */
  lemma PostOverIff(posts: seq<Text>, parts: seq<Text>, text: Text, tag: Text, i: nat)
    requires Budget(tag) >= 2 && Posted(posts, parts, text, tag) && i < |posts|
    ensures |posts[i]| > DISCORD_LIMIT <==> |parts[i]| + |Digits(i + 1)| + |Digits(|posts|)| > Budget(tag) + 4
    ensures |posts| >= 100 && i >= 9 && |parts[i]| == Budget(tag) ==> |posts[i]| > DISCORD_LIMIT
  {
    hide Header, WellCut, Digits;
    HeaderLength(tag, i + 1, |parts|);
    HeaderLength(tag, 99, 99);
    TwoDigits(i + 1);
  }

  lemma TwoDigits(n: nat)
    ensures |Digits(99)| == 2 && (n >= 10 ==> |Digits(n)| >= 2)
  {
    if n >= 10 { assert |Digits(n / 10)| >= 1; }
  }

  /** The parts but the last, each of half the budget or more. */
  lemma FrontOf(posts: seq<Text>, parts: seq<Text>, text: Text, tag: Text) returns (front: seq<Text>)
    requires Budget(tag) >= 2 && Posted(posts, parts, text, tag)
    ensures |parts| == |posts| >= 1 && front == parts[..|parts| - 1] && Joined(front) <= text
    ensures forall k :: 0 <= k < |front| ==> Budget(tag) / 2 <= |front[k]| <= Budget(tag)
  {
    hide Header, GoodCut, SplitsPair, Joined;
    front := parts[..|parts| - 1];
    forall k | 0 <= k < |front| ensures Budget(tag) / 2 <= |front[k]| <= Budget(tag) {
      assert PartFrom(text, Budget(tag), |Joined(front[..k])|, front[k]);
    }
  }

  lemma PartsFit(posts: seq<Text>, parts: seq<Text>, text: Text, tag: Text, i: nat)
    requires Budget(tag) >= 2 && Posted(posts, parts, text, tag) && i < |posts|
    ensures |parts| == |posts| && |parts[i]| <= Budget(tag)
  {
    hide Header, WellCut, Joined, Digits;
    var front := FrontOf(posts, parts, text, tag);
    if i < |front| { assert parts[i] == front[i]; }
  }

  // ------------------------------------------------------------------ a post too long

  const LETTER := 97

  predicate OfLetters(text: Text) { forall i :: 0 <= i < |text| ==> text[i] == LETTER }

  lemma LettersFillTheBudget(rest: Text, budget: nat, cut: nat)
    requires 2 <= budget < |rest| && OfLetters(rest) && GoodCut(rest, budget, cut)
    ensures cut == budget
  {
    assert BreakAt(rest, budget) == budget;
    var atCut := IsSpace(rest[cut]);
  }

  lemma {:induction false} JoinedOfSize(parts: seq<Text>, size: nat)
    requires forall k :: 0 <= k < |parts| ==> |parts[k]| == size
    ensures |Joined(parts)| == |parts| * size
  {
    if parts != [] {
      var n := |parts| - 1;
      JoinedOfSize(parts[..n], size);
      assert |parts| * size == n * size + size;
    }
  }

  lemma FullParts(posts: seq<Text>, parts: seq<Text>, text: Text, tag: Text)
    requires Budget(tag) >= 2 && Posted(posts, parts, text, tag) && OfLetters(text)
    ensures |parts| >= 1 && forall k :: 0 <= k < |parts| - 1 ==> |parts[k]| == Budget(tag)
    ensures (|parts| - 1) * Budget(tag) + |parts[|parts| - 1]| == |text| && |parts[|parts| - 1]| <= Budget(tag)
  {
    hide Header, GoodCut, SplitsPair, Joined, Digits;
    var front := parts[..|parts| - 1];
    forall k | 0 <= k < |front| ensures |front[k]| == Budget(tag) {
      var from := |Joined(front[..k])|;
      assert PartFrom(text, Budget(tag), from, front[k]);
      LettersFillTheBudget(text[from..], Budget(tag), |front[k]|);
    }
    JoinedOfSize(front, Budget(tag));
    assert parts == front + [parts[|parts| - 1]];
    JoinedGrows(front, parts[|parts| - 1]);
  }

  /** Of letters alone, one more than ninety-nine budgets: a hundred posts, of which the
      tenth is over the limit. */
  lemma HundredPosts(posts: seq<Text>, parts: seq<Text>, text: Text, tag: Text)
    requires Budget(tag) >= 2 && Posted(posts, parts, text, tag)
    requires OfLetters(text) && |text| == 99 * Budget(tag) + 1
    ensures |SinglePost(text, tag)| > DISCORD_LIMIT && |posts| == 100 && |posts[9]| > DISCORD_LIMIT
  {
    hide Header, Digits, OfLetters, Joined, WellCut;
    FullParts(posts, parts, text, tag);
    OneCount(|parts| - 1, Budget(tag), |parts[|parts| - 1]|);
    PostOverIff(posts, parts, text, tag, 9);
    HeaderLength(tag, 99, 99);
    TwoDigits(99);
  }

  lemma OneCount(n: nat, size: nat, last: nat)
    requires size >= 2 && last <= size && n * size + last == 99 * size + 1
    ensures n == 99
  {
    InSize(n, 98, size);
    InSize(100, n, size);
  }

  lemma InSize(m: nat, n: nat, size: nat)
    ensures m <= n ==> m * size <= n * size
  {
  }

  lemma HeaderLength(tag: Text, part: nat, parts: nat)
    ensures |Header(tag, part, parts)| == 12 + |tag| + 14 + |Digits(part)| + |Digits(parts)|
  {
  }

  lemma BudgetIs(tag: Text)
    ensures Budget(tag) == 1970 - |tag|
  {
    HeaderLength(tag, 99, 99);
    TwoDigits(99);
  }

  /** The tag of a conversation: an id of at most 32 units leaves budget to spare. */
  lemma TagLeavesBudget(tag: Text)
    requires |tag| <= 48
    ensures Budget(tag) >= 1922
  {
    HeaderLength(tag, 99, 99);
    assert |Digits(99)| == 2;
  }
}
