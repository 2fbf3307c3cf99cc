/** What it means for part of an input to spell a word, with tolerance (censor.go:20-53). */
module Matching {
  import opened Tries

  const MAX_REPEATS := 20

  /** What each input character is taken for. */
  datatype Move = Repeat | Boundary | Skip | Read(c: char)

  predicate IsAlnum(r: char) {
    ('a' <= r <= 'z') || ('0' <= r <= '9')
  }

  /** The characters an input character may stand for: itself, unless listed, and its substitutes. */
  function Expand(repl: map<char, seq<char>>, r: char): seq<char> {
    if r in repl then repl[r] else [r]
  }

  /** A listed character always stands for itself, too. */
  ghost predicate StandsForItself(repl: map<char, seq<char>>) {
    forall r :: r in repl ==> r in repl[r]
  }

  /**
    * Whether a character may be taken so. A repeat is of the same letter or digit as just before; a word's space is
    * matched by any separator; a separator may be skipped, but never a real space.
    */
  predicate LegalMove(input: string, repl: map<char, seq<char>>, start: nat, at: nat, move: Move)
    requires start <= at < |input|
  {
    var r := input[at];
    match move
    case Repeat => IsAlnum(r) && at > start && input[at - 1] == r
    case Boundary => !IsAlnum(r)
    case Skip => !IsAlnum(r) && r != ' '
    case Read(c) => c in Expand(repl, r)
  }

  ghost predicate Legal(input: string, repl: map<char, seq<char>>, start: nat, moves: seq<Move>) {
    && start + |moves| <= |input|
    && forall j :: 0 <= j < |moves| ==> LegalMove(input, repl, start, start + j, moves[j])
  }

  /** The word spelled. */
  function Spelled(moves: seq<Move>): string {
    if moves == [] then ""
    else
      Spelled(moves[..|moves| - 1])
      + match moves[|moves| - 1] { case Boundary => " " case Read(c) => [c] case _ => "" }
  }

  function Skips(moves: seq<Move>): nat {
    if moves == [] then 0 else Skips(moves[..|moves| - 1]) + if moves[|moves| - 1].Skip? then 1 else 0
  }

  function Repeats(moves: seq<Move>): nat {
    if moves == [] then 0 else Repeats(moves[..|moves| - 1]) + if moves[|moves| - 1].Repeat? then 1 else 0
  }

  /** Characters that had to stand for another. */
  function Substitutions(input: string, start: nat, moves: seq<Move>): nat
    requires start + |moves| <= |input|
  {
    if moves == [] then 0
    else
      var last := |moves| - 1;
      Substitutions(input, start, moves[..last]) + if moves[last].Read? && moves[last].c != input[start + last] then 1 else 0
  }

  predicate IsLetter(move: Move) {
    move.Read? && IsAlnum(move.c)
  }

  /** Where the first letter or digit of the word was read, or -1. */
  function FirstLetter(start: nat, moves: seq<Move>): int {
    if moves == [] then -1
    else
      var before := FirstLetter(start, moves[..|moves| - 1]);
      if before >= 0 then before else if IsLetter(moves[|moves| - 1]) then start + |moves| - 1 else -1
  }

  /** Where a letter or digit of the word was last read or repeated, or -1. */
  function LastLetter(start: nat, moves: seq<Move>): int {
    if moves == [] then -1
    else
      var last := moves[|moves| - 1];
      if IsLetter(last) || last.Repeat? then start + |moves| - 1 else LastLetter(start, moves[..|moves| - 1])
  }

  /** At no point are there more skips, substitutions or repeats than a walk may have there. */
  ghost predicate Restrained(input: string, start: nat, moves: seq<Move>)
    requires start + |moves| <= |input|
  {
    moves == []
    || (&& Restrained(input, start, moves[..|moves| - 1])
        && match moves[|moves| - 1]
           case Repeat => Repeats(moves) <= MAX_REPEATS
           case Boundary => true
           case Skip => Skips(moves) <= |Spelled(moves)| + 2
           case Read(_) => Substitutions(input, start, moves) <= |Spelled(moves)| + 1)
  }

  /** How far the moves stray from spelling the word literally. */
  function Cost(input: string, start: nat, moves: seq<Move>): nat
    requires start + |moves| <= |input|
  {
    Skips(moves) + Substitutions(input, start, moves) + Repeats(moves)
  }

  /** At no point do the moves stray further than the walk puts up with. */
  ghost predicate Affordable(input: string, start: nat, moves: seq<Move>)
    requires start + |moves| <= |input|
  {
    moves == []
    || (&& Affordable(input, start, moves[..|moves| - 1])
        && var cost := Cost(input, start, moves);
           match moves[|moves| - 1]
           case Repeat => cost <= MAX_REPEATS
           case Boundary => true
           case Skip => cost <= |Spelled(moves)| + 2
           case Read(_) => cost <= |Spelled(moves)| + 1)
  }

  /** The moves come to a node, within what the walk puts up with. */
  ghost predicate LeadsTo(input: string, repl: map<char, seq<char>>, word: string, start: nat, moves: seq<Move>) {
    Legal(input, repl, start, moves) && Spelled(moves) == word && Affordable(input, start, moves)
  }

  /** There is nothing to skip or to take for something else. */
  predicate Plain(input: string, repl: map<char, seq<char>>, start: nat, end: nat)
    requires end <= |input|
  {
    forall j :: start <= j < end ==> IsAlnum(input[j]) && forall c :: c in Expand(repl, input[j]) ==> c == input[j]
  }

  /** The moves spell the word, straying from it no more than it is long, or through plain text. */
  ghost predicate Tolerable(input: string, repl: map<char, seq<char>>, word: string, start: nat, moves: seq<Move>) {
    LeadsTo(input, repl, word, start, moves) && (Cost(input, start, moves) <= |word| || Plain(input, repl, start, start + |moves|))
  }

  datatype Span = Span(start: int, end: int, typ: Type)

  /**
    * A declarative match: some stretch of the input spells a word of the dictionary by legal and restrained moves,
    * skipping and substituting no more characters than the word has and repeating at most twenty, and the span runs from the
    * first letter or digit read to just after the last.
    */
  ghost predicate Match(input: string, repl: map<char, seq<char>>, dict: map<string, Type>, s: Span) {
    exists start: nat, moves :: MatchedBy(input, repl, dict, s, start, moves)
  }

  ghost predicate MatchedBy(input: string, repl: map<char, seq<char>>, dict: map<string, Type>, s: Span, start: nat, moves: seq<Move>) {
    && Legal(input, repl, start, moves) && Restrained(input, start, moves)
    && Spelled(moves) in dict && s.typ == dict[Spelled(moves)]
    && Skips(moves) <= |Spelled(moves)| && Substitutions(input, start, moves) <= |Spelled(moves)| && Repeats(moves) <= MAX_REPEATS
    && 0 <= s.start == FirstLetter(start, moves) && s.end == LastLetter(start, moves) + 1
  }

  /** The word stands in the input as it is written in the dictionary. */
  predicate Occurs(input: string, word: string, at: nat) {
    at + |word| <= |input| && input[at..at + |word|] == word
  }

  /** The first and the last letter or digit of a word, or -1. */
  function FirstAlnum(word: string): (k: int)
    ensures -1 <= k < |word|
    ensures k >= 0 ==> IsAlnum(word[k])
    ensures k == -1 ==> forall j :: 0 <= j < |word| ==> !IsAlnum(word[j])
  {
    if word == "" then -1
    else
      var before := FirstAlnum(word[..|word| - 1]);
      if before >= 0 then before else if IsAlnum(word[|word| - 1]) then |word| - 1 else -1
  }

  function LastAlnum(word: string): (k: int)
    ensures -1 <= k < |word|
    ensures k >= 0 ==> IsAlnum(word[k])
    ensures k == -1 ==> forall j :: 0 <= j < |word| ==> !IsAlnum(word[j])
  {
    if word == "" then -1 else if IsAlnum(word[|word| - 1]) then |word| - 1 else LastAlnum(word[..|word| - 1])
  }

  /** What a word that occurs literally covers, from its first letter or digit to its last. */
  function Extent(word: string, at: nat, typ: Type): Span {
    Span(at + FirstAlnum(word), at + LastAlnum(word) + 1, typ)
  }

  // ----- Walks

  /** One walk of the trie in flight. */
  datatype Walk = Walk(node: nat, start: nat, firstAlnum: int, lastAlnum: int, skips: nat, repl: nat, repeats: nat, lastRaw: int)
  {
    function Deviation(): nat { skips + repl + repeats }

    function Place(): Key { Key(node, start) }
  }

  datatype Key = Key(node: nat, start: nat)

  function Seed(i: nat): Walk {
    Walk(0, i, -1, -1, 0, 0, 0, -1)
  }

  /** The walk after taking one more character so. */
  function Moved(m: Walk, move: Move, r: char, i: nat, child: nat): Walk {
    match move
    case Repeat => m.(repeats := m.repeats + 1, lastAlnum := i)
    case Boundary => m.(node := child, lastRaw := r as int)
    case Skip => m.(skips := m.skips + 1, lastRaw := r as int)
    case Read(c) =>
      m.(node := child, lastRaw := r as int, repl := if c != r then m.repl + 1 else m.repl,
         firstAlnum := if IsAlnum(c) && m.firstAlnum < 0 then i else m.firstAlnum,
         lastAlnum := if IsAlnum(c) then i else m.lastAlnum)
  }

  /** The walk is what these moves, taken from its start up to `end`, come to. */
  ghost predicate Justified(input: string, repl: map<char, seq<char>>, paths: seq<string>, m: Walk, moves: seq<Move>, end: nat) {
    && m.start + |moves| == end <= |input| && Legal(input, repl, m.start, moves) && Restrained(input, m.start, moves)
    && m.node < |paths| && Spelled(moves) == paths[m.node]
    && m.skips == Skips(moves) && m.repl == Substitutions(input, m.start, moves) && m.repeats == Repeats(moves) <= MAX_REPEATS
    && m.firstAlnum == FirstLetter(m.start, moves) && m.lastAlnum == LastLetter(m.start, moves)
    && m.lastRaw == if moves == [] then -1 else input[end - 1] as int
  }

  lemma SeedJustified(input: string, repl: map<char, seq<char>>, paths: seq<string>, i: nat)
    requires i <= |input| && |paths| >= 1 && paths[0] == ""
    ensures Justified(input, repl, paths, Seed(i), [], i)
  {
  }

  /** One legal move more. */
  lemma OneMore(input: string, repl: map<char, seq<char>>, paths: seq<string>, m: Walk, moves: seq<Move>, i: nat, move: Move, child: nat)
    requires Justified(input, repl, paths, m, moves, i) && i < |input| && LegalMove(input, repl, m.start, i, move)
    requires move.Boundary? ==> child < |paths| && paths[child] == paths[m.node] + " "
    requires move.Read? ==> child < |paths| && paths[child] == paths[m.node] + [move.c]
    requires move.Repeat? ==> m.repeats < MAX_REPEATS && m.lastRaw == input[i] as int
    requires move.Skip? ==> m.skips < |paths[m.node]| + 2
    requires move.Read? ==> Moved(m, move, input[i], i, child).repl <= |paths[child]| + 1
    ensures Justified(input, repl, paths, Moved(m, move, input[i], i, child), moves + [move], i + 1)
  {
    var more := moves + [move];
    assert more[..|more| - 1] == moves && more[|more| - 1] == move;
    if move.Read? && move.c != input[i] {
      assert Substitutions(input, m.start, more) == Substitutions(input, m.start, moves) + 1;
    }
  }

  /** Only something already taken can be repeated. */
  lemma Repeatable(input: string, repl: map<char, seq<char>>, paths: seq<string>, m: Walk, moves: seq<Move>, i: nat)
    requires Justified(input, repl, paths, m, moves, i) && i < |input| && m.lastRaw == input[i] as int && IsAlnum(input[i])
    ensures LegalMove(input, repl, m.start, i, Repeat)
  {
  }

  /** Confident enough to count. */
  predicate Acceptable(m: Walk, depth: nat) {
    m.firstAlnum >= 0 && m.skips <= depth && m.repl <= depth
  }

  /** A walk that has spelled a word is a match. */
  lemma WalkMatches(input: string, repl: map<char, seq<char>>, paths: seq<string>, dict: map<string, Type>, m: Walk, moves: seq<Move>, end: nat, typ: Type)
    requires Justified(input, repl, paths, m, moves, end) && paths[m.node] in dict && typ == dict[paths[m.node]]
    requires Acceptable(m, |paths[m.node]|)
    ensures Match(input, repl, dict, Span(m.firstAlnum, m.lastAlnum + 1, typ))
  {
    assert MatchedBy(input, repl, dict, Span(m.firstAlnum, m.lastAlnum + 1, typ), m.start, moves);
  }

  // ----- Tolerated walks

  lemma Prefix(input: string, repl: map<char, seq<char>>, word: string, start: nat, moves: seq<Move>)
    requires LeadsTo(input, repl, word, start, moves) && moves != []
    ensures var before := moves[..|moves| - 1];
            LeadsTo(input, repl, Spelled(before), start, before)
            && LegalMove(input, repl, start, start + |before|, moves[|moves| - 1])
  {
  }

  /** The letters of the word were read somewhere along the way. */
  lemma {:induction false} LettersInside(start: nat, moves: seq<Move>)
    ensures FirstAlnum(Spelled(moves)) >= 0 ==> FirstLetter(start, moves) >= start
    ensures LastLetter(start, moves) < start + |moves|
    ensures FirstLetter(start, moves) == -1 || start <= FirstLetter(start, moves) <= LastLetter(start, moves)
  {
    if moves != [] {
      var last := |moves| - 1;
      var before, word := Spelled(moves[..last]), Spelled(moves);
      LettersInside(start, moves[..last]);
      assert word == before || word[..|word| - 1] == before;
    }
  }

  /** Every way of spelling a word with a letter takes some of the input. */
  lemma Takes(input: string, repl: map<char, seq<char>>)
    ensures forall w, p: nat, moves :: FirstAlnum(w) >= 0 && Tolerable(input, repl, w, p, moves) ==> 0 < |moves| <= |input| - p
  {
  }

  lemma {:induction false} OnlyRepeats(input: string, repl: map<char, seq<char>>, start: nat, moves: seq<Move>)
    requires Legal(input, repl, start, moves) && Plain(input, repl, start, start + |moves|)
    ensures Skips(moves) == 0 && Substitutions(input, start, moves) == 0
  {
    if moves != [] {
      OnlyRepeats(input, repl, start, moves[..|moves| - 1]);
      assert LegalMove(input, repl, start, start + |moves| - 1, moves[|moves| - 1]);
    }
  }

  /** A walk that strays no more than the word is long, or through plain text, counts, and covers a stretch of what it walked. */
  lemma CheapEnough(input: string, repl: map<char, seq<char>>, paths: seq<string>, m: Walk, moves: seq<Move>, end: nat)
    requires Justified(input, repl, paths, m, moves, end) && FirstAlnum(paths[m.node]) >= 0
    requires m.Deviation() <= |paths[m.node]| || Plain(input, repl, m.start, end)
    ensures Acceptable(m, |paths[m.node]|) && m.start <= m.firstAlnum <= m.lastAlnum < end
  {
    LettersInside(m.start, moves);
    if Plain(input, repl, m.start, end) {
      OnlyRepeats(input, repl, m.start, moves);
    }
  }

  /** A word that stands there literally is read so. */
  function Literal(word: string): (moves: seq<Move>)
    ensures |moves| == |word| && forall j :: 0 <= j < |word| ==> moves[j] == Read(word[j])
  {
    seq(|word|, j requires 0 <= j < |word| => Read(word[j]))
  }

  /** Standing there literally is the cheapest way of being spelled. */
  lemma LiteralIsTolerable(input: string, repl: map<char, seq<char>>, word: string, at: nat)
    requires StandsForItself(repl) && Occurs(input, word, at)
    ensures Tolerable(input, repl, word, at, Literal(word)) && Cost(input, at, Literal(word)) == 0
  {
    var moves := Literal(word);
    forall j | 0 <= j < |moves| ensures LegalMove(input, repl, at, at + j, moves[j]) {
      assert input[at..at + |word|][j] == word[j];
    }
    assert word[..|word|] == word && moves[..|moves|] == moves;
    LiteralCost(input, word, at, |word|);
  }

  lemma {:induction false} LiteralCost(input: string, word: string, at: nat, k: nat)
    requires Occurs(input, word, at) && k <= |word|
    ensures var moves := Literal(word)[..k];
            Spelled(moves) == word[..k] && Cost(input, at, moves) == 0 && Affordable(input, at, moves)
  {
    if k > 0 {
      LiteralCost(input, word, at, k - 1);
      assert Literal(word)[..k][..k - 1] == Literal(word)[..k - 1];
      assert word[..k] == word[..k - 1] + [word[k - 1]];
      assert input[at..at + |word|][k - 1] == word[k - 1];
    }
  }

  /** The letters of the word one by one, with a character skipped between any two. */
  function Punctuated(word: string): (moves: seq<Move>)
    requires word != ""
    ensures |moves| == 2 * |word| - 1
  {
    var last := |word| - 1;
    if last == 0 then [Read(word[0])] else Punctuated(word[..last]) + [Skip, Read(word[last])]
  }

  lemma OneMoveMore(input: string, repl: map<char, seq<char>>, word: string, start: nat, moves: seq<Move>, move: Move)
    requires LeadsTo(input, repl, word, start, moves) && start + |moves| < |input| && StandsForItself(repl)
    requires move.Skip? ==> LegalMove(input, repl, start, start + |moves|, move)
    requires Cost(input, start, moves) <= |word| && (move.Skip? || move == Read(input[start + |moves|]))
    ensures var more := moves + [move];
            && LeadsTo(input, repl, if move.Skip? then word else word + [move.c], start, more)
            && Cost(input, start, more) == Cost(input, start, moves) + if move.Skip? then 1 else 0
  {
    var more := moves + [move];
    assert more[..|more| - 1] == moves && more[|more| - 1] == move;
    assert LegalMove(input, repl, start, start + |moves|, move);
  }

  /** A word with some punctuation mark, but no space, after each of its letters is as good as the word. */
  lemma {:induction false} PunctuatedIsTolerable(input: string, repl: map<char, seq<char>>, word: string, at: nat)
    requires StandsForItself(repl) && word != "" && at + 2 * |word| - 1 <= |input|
    requires forall j :: 0 <= j < |word| ==> input[at + 2 * j] == word[j]
    requires forall j :: 0 <= j < |word| - 1 ==> !IsAlnum(input[at + 2 * j + 1]) && input[at + 2 * j + 1] != ' '
    ensures Tolerable(input, repl, word, at, Punctuated(word)) && Cost(input, at, Punctuated(word)) == |word| - 1
  {
    hide LeadsTo, Cost, StandsForItself;
    var last := |word| - 1;
    var before: seq<Move> := [];
    if last > 0 {
      before := Punctuated(word[..last]);
      PunctuatedIsTolerable(input, repl, word[..last], at);
      assert input[at + |before|] == input[at + 2 * (last - 1) + 1];
    }
    assert word == word[..last] + [word[last]];
    if last > 0 {
      OneMoveMore(input, repl, word[..last], at, before, Skip);
      OneMoveMore(input, repl, word[..last], at, before + [Skip], Read(word[last]));
      assert before + [Skip] + [Read(word[last])] == Punctuated(word);
    } else {
      NoMoves(input, repl, at);
      OneMoveMore(input, repl, "", at, [], Read(word[0]));
      assert [] + [Read(word[0])] == Punctuated(word);
    }
  }

  lemma NoMoves(input: string, repl: map<char, seq<char>>, at: nat)
    requires at <= |input|
    ensures LeadsTo(input, repl, "", at, []) && Cost(input, at, []) == 0
  {
  }

  // ----- Literal walks

  lemma {:induction false} NothingDeviates(input: string, start: nat, moves: seq<Move>)
    requires start + |moves| <= |input| && Skips(moves) + Substitutions(input, start, moves) + Repeats(moves) == 0
    ensures |Spelled(moves)| == |moves|
    ensures forall j :: 0 <= j < |moves| ==> IsAlnum(Spelled(moves)[j]) == IsLetter(moves[j])
    ensures FirstLetter(start, moves) == (if FirstAlnum(Spelled(moves)) >= 0 then start + FirstAlnum(Spelled(moves)) else -1)
    ensures LastLetter(start, moves) == (if LastAlnum(Spelled(moves)) >= 0 then start + LastAlnum(Spelled(moves)) else -1)
  {
    if moves != [] {
      var last := |moves| - 1;
      NothingDeviates(input, start, moves[..last]);
      assert Spelled(moves)[..last] == Spelled(moves[..last]);
    }
  }

  /** A walk with no deviation covers just what the word does where it stands. */
  lemma LiteralExtent(input: string, repl: map<char, seq<char>>, paths: seq<string>, m: Walk, moves: seq<Move>, end: nat, typ: Type)
    requires Justified(input, repl, paths, m, moves, end) && m.Deviation() == 0 && FirstAlnum(paths[m.node]) >= 0
    ensures m.firstAlnum >= 0 && Span(m.firstAlnum, m.lastAlnum + 1, typ) == Extent(paths[m.node], m.start, typ)
  {
    NothingDeviates(input, m.start, moves);
    BothAlnum(paths[m.node]);
  }

  lemma BothAlnum(word: string)
    ensures FirstAlnum(word) >= 0 <==> LastAlnum(word) >= 0
  {
    if LastAlnum(word) >= 0 {
      assert IsAlnum(word[LastAlnum(word)]);
    }
    if FirstAlnum(word) >= 0 {
      assert IsAlnum(word[FirstAlnum(word)]);
    }
  }
}
