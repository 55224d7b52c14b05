/** What a validating agent is shown about earlier rounds: the feedback gathered from the votes, and
    the text made of proposals and feedback. */
module History {
  import opened Core
  import opened Replica
  import opened Voting
  import opened Fsm
  import opened Protocol
  import opened Safety
  import opened Progress
  import opened Examples

  datatype ValidationContext = ValidationContext(
    proposals: map<int, string>, feedback: map<int, seq<string>>, currentRound: int)

  // ---- Sorted listings --------------------------------------------------------------------

  /** `list` holds the elements of `s`, each once, in ascending order. */
  ghost predicate IsListing(list: seq<int>, s: set<int>) {
    && (forall i, j :: 0 <= i < j < |list| ==> list[i] < list[j])
    && (forall x :: x in list <==> x in s)
  }

  lemma {:induction false} ListingIsUnique(a: seq<int>, b: seq<int>, s: set<int>)
    requires IsListing(a, s) && IsListing(b, s)
    ensures a == b
    decreases |a|
  {
    assert a != [] ==> a[0] in a;
    assert b != [] ==> b[0] in b;
    if a != [] && b != [] {
      var x, y := a[|a| - 1], b[|b| - 1];
      assert x in b && y in a;
      assert x == y;
      Shorter(a, s);
      Shorter(b, s);
      ListingIsUnique(a[..|a| - 1], b[..|b| - 1], s - {x});
      assert a == a[..|a| - 1] + [x] && b == b[..|b| - 1] + [y];
    }
  }

  lemma Shorter(a: seq<int>, s: set<int>)
    requires IsListing(a, s) && a != []
    ensures IsListing(a[..|a| - 1], s - {a[|a| - 1]})
  {
    var front, x := a[..|a| - 1], a[|a| - 1];
    assert a == front + [x];
    forall y ensures y in front <==> y in s && y != x {
      if y in front {
        var i :| 0 <= i < |front| && front[i] == y;
        assert a[i] == y && y in a;
      }
      if y in s && y != x {
        assert y in a;
      }
    }
  }

  function Insert(x: int, s: seq<int>): seq<int> {
    if s == [] || x <= s[0] then [x] + s else [s[0]] + Insert(x, s[1..])
  }

  function SortInts(s: seq<int>): seq<int> {
    if s == [] then [] else Insert(s[0], SortInts(s[1..]))
  }

  ghost predicate Ascending(s: seq<int>) {
    forall i, j :: 0 <= i < j < |s| ==> s[i] <= s[j]
  }

  lemma {:induction false} InsertKeepsContents(x: int, s: seq<int>)
    ensures multiset(Insert(x, s)) == multiset{x} + multiset(s)
  {
    if s != [] && x > s[0] {
      InsertKeepsContents(x, s[1..]);
      assert s == [s[0]] + s[1..];
    }
  }

  lemma {:induction false} InsertSorts(x: int, s: seq<int>)
    requires Ascending(s)
    ensures Ascending(Insert(x, s))
  {
    if s != [] && x > s[0] {
      var t := Insert(x, s[1..]);
      InsertSorts(x, s[1..]);
      InsertKeepsContents(x, s[1..]);
      forall j | 0 <= j < |t| ensures s[0] <= t[j] {
        assert t[j] in multiset{x} + multiset(s[1..]);
        assert t[j] == x || t[j] in s[1..];
      }
    }
  }

  lemma {:induction false} SortIntsSorts(s: seq<int>)
    ensures Ascending(SortInts(s)) && multiset(SortInts(s)) == multiset(s)
  {
    if s != [] {
      SortIntsSorts(s[1..]);
      InsertSorts(s[0], SortInts(s[1..]));
      InsertKeepsContents(s[0], SortInts(s[1..]));
      assert s == [s[0]] + s[1..];
    }
  }

  lemma InTwoPlaces(list: seq<int>, i: nat, j: nat)
    requires i < j < |list| && list[i] == list[j]
    ensures multiset(list)[list[i]] >= 2
  {
    assert list == list[..j] + list[j..];
    assert list[..j][i] == list[i] && list[j..][0] == list[j];
    assert multiset(list[..j])[list[i]] >= 1 && multiset(list[j..])[list[i]] >= 1;
  }

  lemma SortedOnceIsListing(list: seq<int>, s: set<int>)
    requires Ascending(list)
    requires forall x :: multiset(list)[x] == if x in s then 1 else 0
    ensures IsListing(list, s)
  {
    forall i, j | 0 <= i < j < |list| ensures list[i] < list[j] {
      if list[i] == list[j] {
        InTwoPlaces(list, i, j);
        assert false;
      }
    }
    forall x ensures x in list <==> x in s {
      assert x in list <==> x in multiset(list);
    }
  }

  // ---- The text ---------------------------------------------------------------------------

  const DIGITS := "0123456789"

  function Digits(n: nat): string {
    if n < 10 then [DIGITS[n]] else Digits(n / 10) + [DIGITS[n % 10]]
  }

  function Decimal(n: int): string {
    if n < 0 then "-" + Digits(-n) else Digits(n)
  }

  function FeedbackLines(feedback: seq<string>): string {
    if feedback == [] then ""
    else
      var n := |feedback| - 1;
      FeedbackLines(feedback[..n]) + "  " + Decimal(n + 1) + ". " + feedback[n] + "\n"
  }

  function RoundText(ctx: ValidationContext, round: int): string
    requires round in ctx.proposals
  {
    "\n[Round " + Decimal(round) + " Proposal]:\n" + ctx.proposals[round] + "\n"
    + if round in ctx.feedback && |ctx.feedback[round]| > 0
      then "[Round " + Decimal(round) + " Feedback]:\n" + FeedbackLines(ctx.feedback[round]) else ""
  }

  function RoundTexts(ctx: ValidationContext, rounds: seq<int>): string
    requires forall r :: r in rounds ==> r in ctx.proposals
  {
    if rounds == [] then ""
    else RoundTexts(ctx, rounds[..|rounds| - 1]) + RoundText(ctx, rounds[|rounds| - 1])
  }

  const HEADER := "\n--- Revision History ---\n"
  const FOOTER := "--- End History ---\n"

  function Past(ctx: ValidationContext): set<int> {
    set r | r in ctx.proposals && r < ctx.currentRound
  }

  /** `text` is the history of the past rounds in ascending order. */
  ghost predicate IsHistory(ctx: ValidationContext, text: string) {
    if |ctx.proposals| <= 1 then text == ""
    else exists rounds :: IsListing(rounds, Past(ctx)) && text == HEADER + RoundTexts(ctx, rounds) + FOOTER
  }

  /** There is one history only, so the order in which the map of proposals is visited is irrelevant. */
  lemma HistoryIsUnique(ctx: ValidationContext, a: string, b: string)
    requires IsHistory(ctx, a) && IsHistory(ctx, b)
    ensures a == b
  {
    if |ctx.proposals| > 1 {
      var r :| IsListing(r, Past(ctx)) && a == HEADER + RoundTexts(ctx, r) + FOOTER;
      var q :| IsListing(q, Past(ctx)) && b == HEADER + RoundTexts(ctx, q) + FOOTER;
      ListingIsUnique(r, q, Past(ctx));
    }
  }

  // ---- What the text says -----------------------------------------------------------------

  ghost predicate StandsAt(text: string, i: int, word: string) {
    0 <= i && i + |word| <= |text| && text[i..i + |word|] == word
  }

  /** The words stand in the text one after the other, with anything between them. */
  ghost predicate Says(text: string, words: seq<string>)
    decreases |words|
  {
    words == [] || exists i :: StandsAt(text, i, words[0]) && Says(text[i + |words[0]|..], words[1..])
  }

  /** The positions and texts of the feedback, from 1 on. */
  function FeedbackWords(feedback: seq<string>): seq<string> {
    if feedback == [] then []
    else FeedbackWords(feedback[..|feedback| - 1]) + [Decimal(|feedback|), feedback[|feedback| - 1]]
  }

  /** For each round its number, its proposal and its feedback. */
  function HistoryWords(ctx: ValidationContext, rounds: seq<int>): seq<string>
    requires forall r :: r in rounds ==> r in ctx.proposals
  {
    if rounds == [] then []
    else
      var r := rounds[|rounds| - 1];
      HistoryWords(ctx, rounds[..|rounds| - 1]) + [Decimal(r), ctx.proposals[r]]
      + if r in ctx.feedback then FeedbackWords(ctx.feedback[r]) else []
  }

  lemma SaysWord(before: string, word: string, after: string)
    ensures Says(before + word + after, [word])
  {
    var text, words, i := before + word + after, [word], |before|;
    assert text[i..i + |word|] == word && words[1..] == [];
    assert StandsAt(text, i, words[0]) && Says(text[i + |words[0]|..], words[1..]);
  }

  lemma {:induction false} SaysMore(a: string, b: string, words: seq<string>)
    requires Says(b, words)
    ensures Says(a + b, words)
  {
    if words != [] {
      var i :| StandsAt(b, i, words[0]) && Says(b[i + |words[0]|..], words[1..]);
      var j := |a| + i;
      assert (a + b)[j..j + |words[0]|] == b[i..i + |words[0]|];
      assert (a + b)[j + |words[0]|..] == b[i + |words[0]|..];
      assert StandsAt(a + b, j, words[0]);
    }
  }

  lemma {:induction false} SaysBoth(a: string, u: seq<string>, b: string, v: seq<string>)
    requires Says(a, u) && Says(b, v)
    ensures Says(a + b, u + v)
    decreases |u|
  {
    if u == [] {
      SaysMore(a, b, v);
      assert u + v == v;
    } else {
      var i :| StandsAt(a, i, u[0]) && Says(a[i + |u[0]|..], u[1..]);
      var rest := a[i + |u[0]|..];
      SaysBoth(rest, u[1..], b, v);
      assert (a + b)[i..i + |u[0]|] == a[i..i + |u[0]|];
      assert (a + b)[i + |u[0]|..] == rest + b;
      assert StandsAt(a + b, i, u[0]);
      assert (u + v)[0] == u[0] && (u + v)[1..] == u[1..] + v;
    }
  }

  lemma SaysTwo(a: string, number: string, b: string, line: string, c: string)
    ensures Says(a + number + b + line + c, [number, line])
  {
    hide Says;
    SaysWord(a, number, "");
    SaysWord(b, line, c);
    assert a + number + "" == a + number;
    SaysBoth(a + number, [number], b + line + c, [line]);
    assert (a + number) + (b + line + c) == a + number + b + line + c;
    assert [number] + [line] == [number, line];
  }

  lemma {:induction false} FeedbackIsSaid(feedback: seq<string>)
    ensures Says(FeedbackLines(feedback), FeedbackWords(feedback))
  {
    hide Says;
    if feedback == [] {
      SaysNothing("");
    } else {
      var n := |feedback| - 1;
      FeedbackIsSaid(feedback[..n]);
      OneMoreLine(FeedbackLines(feedback[..n]), FeedbackWords(feedback[..n]), Decimal(n + 1), feedback[n]);
    }
  }

  lemma SaysNothing(text: string)
    ensures Says(text, [])
  {
  }

  lemma OneMoreLine(front: string, words: seq<string>, number: string, line: string)
    requires Says(front, words)
    ensures Says(front + "  " + number + ". " + line + "\n", words + [number, line])
  {
    hide Says;
    Appended(front, words, "  ", number, ". ", line, "\n");
  }

  lemma Appended(front: string, words: seq<string>, a: string, number: string, b: string, line: string, c: string)
    requires Says(front, words)
    ensures Says(front + a + number + b + line + c, words + [number, line])
  {
    hide Says;
    SaysTwo(a, number, b, line, c);
    SaysBoth(front, words, a + number + b + line + c, [number, line]);
    assert front + (a + number + b + line + c) == front + a + number + b + line + c;
  }

  lemma RoundIsSaid(ctx: ValidationContext, r: int)
    requires r in ctx.proposals
    ensures Says(RoundText(ctx, r), [Decimal(r), ctx.proposals[r]]
                                    + if r in ctx.feedback then FeedbackWords(ctx.feedback[r]) else [])
  {
    hide Says, Decimal, FeedbackLines;
    var words := [Decimal(r), ctx.proposals[r]];
    var feedback := if r in ctx.feedback then ctx.feedback[r] else [];
    var head := "\n[Round " + Decimal(r) + " Proposal]:\n" + ctx.proposals[r] + "\n";
    SaysTwo("\n[Round ", Decimal(r), " Proposal]:\n", ctx.proposals[r], "\n");
    if feedback == [] {
      assert words + [] == words && head + "" == head;
    } else {
      var title := "[Round " + Decimal(r) + " Feedback]:\n";
      FeedbackIsSaid(feedback);
      SaysMore(title, FeedbackLines(feedback), FeedbackWords(feedback));
      SaysBoth(head, words, title + FeedbackLines(feedback), FeedbackWords(feedback));
    }
  }

  lemma {:induction false} RoundsAreSaid(ctx: ValidationContext, rounds: seq<int>)
    requires forall r :: r in rounds ==> r in ctx.proposals
    ensures Says(RoundTexts(ctx, rounds), HistoryWords(ctx, rounds))
  {
    hide Says, Decimal, RoundText;
    if rounds == [] {
      SaysNothing("");
    } else {
      var front, r := rounds[..|rounds| - 1], rounds[|rounds| - 1];
      RoundsAreSaid(ctx, front);
      RoundIsSaid(ctx, r);
      var words := [Decimal(r), ctx.proposals[r]] + if r in ctx.feedback then FeedbackWords(ctx.feedback[r]) else [];
      SaysBoth(RoundTexts(ctx, front), HistoryWords(ctx, front), RoundText(ctx, r), words);
      assert HistoryWords(ctx, rounds) == HistoryWords(ctx, front) + words;
    }
  }

  ghost predicate Tells(ctx: ValidationContext, text: string, rounds: seq<int>) {
    (forall r :: r in rounds ==> r in ctx.proposals) && Says(text, HistoryWords(ctx, rounds))
  }

  /** The history says, for every past round in ascending order, its number, the proposal recorded for it
      and each piece of its feedback with its position. */
  lemma HistorySaysAll(ctx: ValidationContext, text: string, rounds: seq<int>)
    requires IsHistory(ctx, text) && |ctx.proposals| > 1 && IsListing(rounds, Past(ctx))
    ensures Tells(ctx, text, rounds)
  {
    hide Says, RoundTexts;
    var order :| IsListing(order, Past(ctx)) && text == HEADER + RoundTexts(ctx, order) + FOOTER;
    ListingIsUnique(order, rounds, Past(ctx));
    assert forall r :: r in rounds ==> r in Past(ctx);
    RoundsAreSaid(ctx, rounds);
    Between(HEADER, RoundTexts(ctx, rounds), FOOTER, HistoryWords(ctx, rounds));
  }

  lemma Between(a: string, text: string, b: string, words: seq<string>)
    requires Says(text, words)
    ensures Says(a + text + b, words)
  {
    hide Says;
    SaysNothing(b);
    SaysBoth(text, words, b, []);
    assert words + [] == words;
    SaysMore(a, text + b, words);
    assert a + (text + b) == a + text + b;
  }

  /** One history in full. */
  lemma HistoryInFull(text: string)
    requires IsHistory(ValidationContext(map[1 := "p1", 2 := "p2"], map[1 := ["no"]], 2), text)
    ensures text == "\n--- Revision History ---\n" + "\n[Round 1 Proposal]:\np1\n"
                  + "[Round 1 Feedback]:\n  1. no\n" + "--- End History ---\n"
  {
    hide IsHistory, RoundTexts, RoundText, FeedbackLines;
    var ctx := ValidationContext(map[1 := "p1", 2 := "p2"], map[1 := ["no"]], 2);
    OneRound(ctx, text);
    FirstRoundText(ctx);
  }

  lemma OneRound(ctx: ValidationContext, text: string)
    requires ctx.proposals.Keys == {1, 2} && ctx.currentRound == 2 && IsHistory(ctx, text)
    ensures text == HEADER + RoundText(ctx, 1) + FOOTER
  {
    hide RoundText;
    assert |ctx.proposals| == |ctx.proposals.Keys| == 2;
    assert IsListing([1], Past(ctx));
    var rounds :| IsListing(rounds, Past(ctx)) && text == HEADER + RoundTexts(ctx, rounds) + FOOTER;
    ListingIsUnique(rounds, [1], Past(ctx));
    LastRound(ctx);
  }

  lemma LastRound(ctx: ValidationContext)
    requires 1 in ctx.proposals
    ensures RoundTexts(ctx, [1]) == RoundText(ctx, 1)
  {
    hide RoundText;
    assert [1][..0] == [];
    assert "" + RoundText(ctx, 1) == RoundText(ctx, 1);
  }

  lemma FirstRoundText(ctx: ValidationContext)
    requires 1 in ctx.proposals && ctx.proposals[1] == "p1" && 1 in ctx.feedback && ctx.feedback[1] == ["no"]
    ensures RoundText(ctx, 1) == "\n[Round 1 Proposal]:\np1\n" + "[Round 1 Feedback]:\n  1. no\n"
  {
    hide FeedbackLines, Decimal;
    OneLine();
  }

  lemma OneLine()
    ensures Decimal(1) == "1" && FeedbackLines(["no"]) == "  1. no\n"
  {
    assert ["no"][..0] == [];
  }

  // ---- Numbers ----------------------------------------------------------------------------

  function ReadDigit(c: char): int {
    c as int - '0' as int
  }

  function ReadDigits(s: string): int {
    if s == "" then 0 else 10 * ReadDigits(s[..|s| - 1]) + ReadDigit(s[|s| - 1])
  }

  function ReadDecimal(s: string): int {
    if s != "" && s[0] == '-' then -ReadDigits(s[1..]) else ReadDigits(s)
  }

  lemma {:induction false} DigitsReadBack(n: nat)
    ensures Digits(n) != "" && Digits(n)[0] != '-' && ReadDigits(Digits(n)) == n
  {
    DigitReadsBack(n % 10);
    if n < 10 {
      assert Digits(n)[..0] == "";
    } else {
      DigitsReadBack(n / 10);
      assert Digits(n)[..|Digits(n)| - 1] == Digits(n / 10);
    }
  }

  lemma DigitReadsBack(d: nat)
    requires d < 10
    ensures ReadDigit(DIGITS[d]) == d && DIGITS[d] != '-'
  {
  }

  /** A round's number can be read back from its decimal form, so no two rounds look alike. */
  lemma DecimalReadsBack(n: int)
    ensures ReadDecimal(Decimal(n)) == n
  {
    hide Digits, ReadDigits;
    if n < 0 {
      DigitsReadBack(-n);
      assert ("-" + Digits(-n))[1..] == Digits(-n);
    } else {
      DigitsReadBack(n);
    }
  }

  // ---- No two histories alike -------------------------------------------------------------

  lemma SplitEqual(a: string, b: string, c: string, d: string)
    requires a + b == c + d && |b| == |d|
    ensures a == c && b == d
  {
    assert (a + b)[..|a|] == a && (a + b)[|a|..] == b;
    assert (c + d)[..|c|] == c && (c + d)[|c|..] == d;
  }

  /** The same rounds, as many characters in each proposal, the same feedback. */
  ghost predicate SameShape(a: ValidationContext, b: ValidationContext, rounds: seq<int>) {
    a.feedback == b.feedback &&
    forall r :: r in rounds ==> r in a.proposals && r in b.proposals && |a.proposals[r]| == |b.proposals[r]|
  }

  lemma RoundTellsProposal(a: ValidationContext, b: ValidationContext, r: int)
    requires SameShape(a, b, [r])
    ensures r in a.proposals && r in b.proposals && |RoundText(a, r)| == |RoundText(b, r)|
    ensures RoundText(a, r) == RoundText(b, r) ==> a.proposals[r] == b.proposals[r]
  {
    assert r in [r];
    var head := "\n[Round " + Decimal(r) + " Proposal]:\n";
    var tail := "\n" + if r in a.feedback && |a.feedback[r]| > 0
                       then "[Round " + Decimal(r) + " Feedback]:\n" + FeedbackLines(a.feedback[r]) else "";
    assert RoundText(a, r) == (head + a.proposals[r]) + tail;
    assert RoundText(b, r) == (head + b.proposals[r]) + tail;
    if RoundText(a, r) == RoundText(b, r) {
      SplitEqual(head + a.proposals[r], tail, head + b.proposals[r], tail);
      SplitEqual(head, a.proposals[r], head, b.proposals[r]);
    }
  }

  lemma {:induction false} RoundsTellProposals(a: ValidationContext, b: ValidationContext, rounds: seq<int>)
    requires SameShape(a, b, rounds)
    ensures |RoundTexts(a, rounds)| == |RoundTexts(b, rounds)|
    ensures RoundTexts(a, rounds) == RoundTexts(b, rounds) ==>
              forall r :: r in rounds ==> a.proposals[r] == b.proposals[r]
  {
    if rounds != [] {
      var front, r := rounds[..|rounds| - 1], rounds[|rounds| - 1];
      assert forall q :: q in front ==> q in rounds;
      assert r in rounds && rounds == front + [r];
      RoundsTellProposals(a, b, front);
      RoundTellsProposal(a, b, r);
      if RoundTexts(a, rounds) == RoundTexts(b, rounds) {
        SplitEqual(RoundTexts(a, front), RoundText(a, r), RoundTexts(b, front), RoundText(b, r));
      }
    }
  }

  /** Two contexts with the same past rounds and feedback, and proposals of the same lengths, give the
      same text only if they have the same proposals. */
  lemma HistoryTellsProposals(a: ValidationContext, b: ValidationContext, rounds: seq<int>, text: string)
    requires IsHistory(a, text) && IsHistory(b, text) && |a.proposals| > 1 && |b.proposals| > 1
    requires IsListing(rounds, Past(a)) && IsListing(rounds, Past(b)) && SameShape(a, b, rounds)
    ensures forall r :: r in rounds ==> a.proposals[r] == b.proposals[r]
  {
    var x :| IsListing(x, Past(a)) && text == HEADER + RoundTexts(a, x) + FOOTER;
    var y :| IsListing(y, Past(b)) && text == HEADER + RoundTexts(b, y) + FOOTER;
    ListingIsUnique(x, rounds, Past(a));
    ListingIsUnique(y, rounds, Past(b));
    SplitEqual(HEADER + RoundTexts(a, rounds), FOOTER, HEADER + RoundTexts(b, rounds), FOOTER);
    RoundsTellProposals(a, b, rounds);
    SplitEqual(HEADER, RoundTexts(a, rounds), HEADER, RoundTexts(b, rounds));
  }

  // ---- Writing the text -------------------------------------------------------------------

  method PastRounds(ctx: ValidationContext) returns (rounds: seq<int>)
    ensures IsListing(rounds, Past(ctx))
  {
    rounds := [];
    var todo := ctx.proposals.Keys;
    while todo != {}
      invariant todo <= ctx.proposals.Keys
      invariant forall x :: multiset(rounds)[x] == if x in Past(ctx) - todo then 1 else 0
      decreases todo
    {
      assert (forall r :: r !in todo) ==> todo == {};
      var r :| r in todo;
      todo := todo - {r};
      if r < ctx.currentRound {
        rounds := rounds + [r];
      }
    }
    SortIntsSorts(rounds);
    rounds := SortInts(rounds);
    SortedOnceIsListing(rounds, Past(ctx));
  }

  method FormatFeedback(feedback: seq<string>) returns (text: string)
    ensures text == FeedbackLines(feedback)
  {
    text := "";
    for i := 0 to |feedback|
      invariant text == FeedbackLines(feedback[..i])
    {
      assert feedback[..i + 1][..i] == feedback[..i];
      text := text + "  " + Decimal(i + 1) + ". " + feedback[i] + "\n";
    }
    assert feedback[..|feedback|] == feedback;
  }

  method FormatRound(vc: ValidationContext, r: int) returns (part: string)
    requires r in vc.proposals
    ensures part == RoundText(vc, r)
  {
    part := "\n[Round " + Decimal(r) + " Proposal]:\n" + vc.proposals[r] + "\n";
    var rest := "";
    if r in vc.feedback && |vc.feedback[r]| > 0 {
      var lines := FormatFeedback(vc.feedback[r]);
      rest := "[Round " + Decimal(r) + " Feedback]:\n" + lines;
    }
    part := part + rest;
  }

  method FormatRounds(vc: ValidationContext, rounds: seq<int>) returns (body: string)
    requires forall r :: r in rounds ==> r in vc.proposals
    ensures body == RoundTexts(vc, rounds)
  {
    body := "";
    for i := 0 to |rounds|
      invariant forall r :: r in rounds[..i] ==> r in vc.proposals
      invariant body == RoundTexts(vc, rounds[..i])
    {
      assert rounds[..i + 1][..i] == rounds[..i];
      assert rounds[i] in rounds;
      var part := FormatRound(vc, rounds[i]);
      body := body + part;
    }
    assert rounds[..|rounds|] == rounds;
  }

  method FormatHistory(ctx: Option<ValidationContext>) returns (text: string)
    ensures ctx.None? || |ctx.value.proposals| <= 1 ==> text == ""
    ensures ctx.Some? ==> IsHistory(ctx.value, text)
    ensures ctx.Some? && |ctx.value.proposals| > 1 ==>
              exists rounds :: IsListing(rounds, Past(ctx.value)) && Tells(ctx.value, text, rounds)
  {
    if ctx.None? || |ctx.value.proposals| <= 1 {
      return "";
    }
    var rounds := PastRounds(ctx.value);
    assert forall r :: r in rounds ==> r in Past(ctx.value);
    var body := FormatRounds(ctx.value, rounds);
    text := HEADER + body + FOOTER;
    HistorySaysAll(ctx.value, text, rounds);
  }

  // ---- The true history -------------------------------------------------------------------

  function UpTo(k: nat): seq<int> {
    seq(k, i => i + 1)
  }

  /** On any node in any reachable state, the validator of round k of a task under vote is told of
      exactly the rounds 1 to k - 1, in order, each with the proposal recorded for it. The text is
      empty exactly when there is no second proposal; while there is none, k is 1. */
  lemma ValidatorsSeeTheHistory(c: Config, me: string, k: Cluster, s: State, id: string,
                                ctx: ValidationContext, text: string)
    requires c.members != {} && Reached(c, me, k) && Holds(k, s) && id in s.tasks && s.tasks[id].status.Proposal?
    requires ctx.proposals == s.tasks[id].proposals && ctx.currentRound == s.tasks[id].round
    requires IsHistory(ctx, text)
    ensures var round := s.tasks[id].round;
            && round >= 1 && (forall r :: r in UpTo(round - 1) ==> r in ctx.proposals)
            && text == (if 2 in ctx.proposals then HEADER + RoundTexts(ctx, UpTo(round - 1)) + FOOTER else "")
            && (text == "" <==> 2 !in ctx.proposals)
            && (2 !in ctx.proposals ==> round == 1)
            && (text != "" ==> Tells(ctx, text, UpTo(round - 1)))
  {
    hide IsHistory, RoundTexts, Says, Reached;
    var rec := s.tasks[id];
    HeldIsOk(c, me, k, s);
    assert TaskOk(c, rec, VotesOf(s, id, rec.round));
    ListsTheRounds(c, rec, ctx, text);
  }

  lemma ListsTheRounds(c: Config, rec: TaskRecord, ctx: ValidationContext, text: string)
    requires Recorded(c, rec) && ctx.proposals == rec.proposals && ctx.currentRound == rec.round && IsHistory(ctx, text)
    ensures rec.round >= 1 && (2 !in ctx.proposals ==> rec.round == 1)
    ensures forall r :: r in UpTo(rec.round - 1) ==> r in ctx.proposals
    ensures text == (if 2 in ctx.proposals then HEADER + RoundTexts(ctx, UpTo(rec.round - 1)) + FOOTER else "")
    ensures text == "" <==> 2 !in ctx.proposals
    ensures text != "" ==> Tells(ctx, text, UpTo(rec.round - 1))
  {
    var keys := rec.proposals.Keys;
    assert 1 in keys && |rec.proposals| == |keys|;
    if 2 in keys {
      SubsetSizeInt({1, 2}, keys);
      assert IsListing(UpTo(rec.round - 1), Past(ctx)) by {
        forall x ensures x in UpTo(rec.round - 1) <==> x in Past(ctx) {
          if x in Past(ctx) { assert UpTo(rec.round - 1)[x - 1] == x; }
        }
      }
      var rounds :| IsListing(rounds, Past(ctx)) && text == HEADER + RoundTexts(ctx, rounds) + FOOTER;
      ListingIsUnique(rounds, UpTo(rec.round - 1), Past(ctx));
      HistorySaysAll(ctx, text, UpTo(rec.round - 1));
      assert |text| >= |HEADER|;
    } else {
      assert forall r :: r in keys <==> r == 1;
      assert keys == {1};
    }
  }

  /** In step with the log there is a second proposal exactly from round 2 on. So there the validator
      of the first round, and only that one, is told nothing. */
  lemma FirstRoundHasNoHistory(c: Config, s: State, id: string, ctx: ValidationContext, text: string)
    requires SyncOk(c, Twin(s, s)) && id in s.tasks && s.tasks[id].status.Proposal?
    requires ctx.proposals == s.tasks[id].proposals && ctx.currentRound == s.tasks[id].round
    requires IsHistory(ctx, text)
    ensures text == "" <==> s.tasks[id].round == 1
  {
    var rec := s.tasks[id];
    assert HistoryOk(c, rec, RoundsOf(s, id)) && TaskOk(c, rec, VotesOf(s, id, rec.round));
    ListsTheRounds(c, rec, ctx, text);
  }

  /** A task back at round 1 after a lost fallback: the validator gets a history without rounds. */
  lemma LostFallbackShowsEmptyHistory(ctx: ValidationContext, text: string)
    requires ctx.proposals == map[1 := "p1", 2 := "p2"] && ctx.currentRound == 1 && IsHistory(ctx, text)
    ensures text == HEADER + FOOTER
    ensures exists k: Cluster :: Reached(ONE, "a", k) && TaskOf(k.leader.twin.live, "t") == Some(At(1, ctx.proposals))
  {
    hide Stands, Reached, IsHistory;
    LostFallbackIsReachable();
    var k: Cluster :| Stands(ONE, "a", k, At(1, ctx.proposals), R2);
    Standing(ONE, "a", k, At(1, ctx.proposals), R2);
    FirstOfTwo(ctx, text);
  }

  lemma FirstOfTwo(ctx: ValidationContext, text: string)
    requires 1 in ctx.proposals && 2 in ctx.proposals && ctx.currentRound == 1 && IsHistory(ctx, text)
    requires forall r :: r in ctx.proposals ==> 1 <= r <= 2
    ensures text == HEADER + FOOTER
  {
    hide IsHistory;
    var rec := At(1, ctx.proposals);
    ListsTheRounds(ONE, rec, ctx, text);
    assert UpTo(0) == [];
    assert HEADER + "" == HEADER;
  }

  lemma SubsetSizeInt(a: set<int>, b: set<int>)
    requires a <= b
    ensures |a| <= |b|
  {
    SubsetSize(a, b);
  }

  // ---- Feedback ---------------------------------------------------------------------------

  /** What a rejecting vote contributes: its rebuttal, or else its reasoning. */
  function Objection(v: Vote): string {
    if v.rebuttal != "" then v.rebuttal else v.reasoning
  }

  function Objectors(votes: map<string, Vote>): set<string> {
    set a | a in votes && !votes[a].accepted && Objection(votes[a]) != ""
  }

  /** `texts` are the objections of the agents in `order`, who are those in `agents`, each once. */
  ghost predicate Lists(votes: map<string, Vote>, agents: set<string>, texts: seq<string>, order: seq<string>) {
    && |order| == |texts|
    && (forall i, j :: 0 <= i < j < |order| ==> order[i] != order[j])
    && (forall a :: a in order <==> a in agents)
    && (forall i :: 0 <= i < |order| ==> order[i] in votes && texts[i] == Objection(votes[order[i]]))
  }

  /** The feedback of a round: every objection once, in some order. */
  ghost predicate IsFeedback(votes: map<string, Vote>, texts: seq<string>) {
    exists order :: Lists(votes, Objectors(votes), texts, order)
  }

  ghost predicate Objects(v: Vote, text: string) {
    !v.accepted && (v.rebuttal == text || (v.rebuttal == "" && v.reasoning == text))
  }

  /** The feedback of a round is made of exactly what its rejecting votes say: the rebuttal, or where that
      is empty, the reasoning. */
  lemma FeedbackIsWhatRejectersSay(votes: map<string, Vote>, texts: seq<string>, text: string)
    requires IsFeedback(votes, texts)
    ensures text in texts <==>
            text != "" && exists a :: a in votes && Objects(votes[a], text)
    ensures |texts| <= |votes|
  {
    var order :| Lists(votes, Objectors(votes), texts, order);
    if text in texts {
      var i :| 0 <= i < |texts| && texts[i] == text;
      assert order[i] in Objectors(votes);
    }
    if text != "" {
      forall a | a in votes && Objects(votes[a], text) ensures text in texts
      {
        assert a in Objectors(votes);
        var i :| 0 <= i < |order| && order[i] == a;
        assert texts[i] == text;
      }
    }
    DistinctBound(order, votes.Keys);
    assert |votes.Keys| == |votes|;
  }

  lemma {:induction false} DistinctBound(order: seq<string>, agents: set<string>)
    requires forall i, j :: 0 <= i < j < |order| ==> order[i] != order[j]
    requires forall a :: a in order ==> a in agents
    ensures |order| <= |agents|
  {
    if order != [] {
      var n := |order| - 1;
      assert order[n] in agents;
      DistinctBound(order[..n], agents - {order[n]});
    }
  }

  method GatherRound(votes: map<string, Vote>) returns (texts: seq<string>)
    ensures IsFeedback(votes, texts)
    ensures texts == [] <==> Objectors(votes) == {}
  {
    texts := [];
    ghost var order: seq<string> := [];
    var todo := votes.Keys;
    while todo != {}
      invariant todo <= votes.Keys
      invariant Lists(votes, Objectors(votes) - todo, texts, order)
      decreases todo
    {
      var a :| a in todo;
      todo := todo - {a};
      var v := votes[a];
      if !v.accepted {
        if v.rebuttal != "" {
          texts := texts + [v.rebuttal];
          order := order + [a];
        } else if v.reasoning != "" {
          texts := texts + [v.reasoning];
          order := order + [a];
        }
      }
    }
    assert Objectors(votes) - {} == Objectors(votes);
    if texts != [] {
      assert order[0] in Objectors(votes);
    }
  }

  /** The feedback on every earlier round: all objections of that round and nothing else. */
  method GatherFeedback(fsm: SyncMapFSM, id: string, round: int) returns (feedback: map<int, seq<string>>)
    ensures forall r :: r in feedback <==> 1 <= r < round && Objectors(VotesOf(fsm.View(), id, r)) != {}
    ensures forall r :: r in feedback ==> IsFeedback(VotesOf(fsm.View(), id, r), feedback[r])
  {
    feedback := map[];
    var r := 1;
    while r < round
      invariant r >= 1 && (round >= 1 ==> r <= round)
      invariant forall q :: q in feedback <==> 1 <= q < r && q < round && Objectors(VotesOf(fsm.View(), id, q)) != {}
      invariant forall q :: q in feedback ==> IsFeedback(VotesOf(fsm.View(), id, q), feedback[q])
    {
      var votes := fsm.GetTaskVotes(id, r);
      if votes.Some? {
        var texts := GatherRound(votes.value);
        if texts != [] {
          feedback := feedback[r := texts];
        }
      }
      r := r + 1;
    }
  }
}
