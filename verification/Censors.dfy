/** The pruned simultaneous walk of the trie, and cancellation by allow-listed spans (censor.go:55-186, gostrict.go:40-101). */
module Censors {
  import opened Tries
  import opened Matching

  type Walks = map<Key, Walk>

  /** Keep the cheaper of two walks to the same place. */
  function AddTo(m: Walks, pm: Walk): Walks {
    if pm.Place() in m && pm.Deviation() >= m[pm.Place()].Deviation() then m else m[pm.Place() := pm]
  }

  /** Walks are filed by place. */
  ghost predicate Filed(m: Walks) {
    forall k :: k in m ==> m[k].Place() == k
  }

  /** No place is lost, and none gets dearer. */
  ghost predicate Improved(m: Walks, n: Walks) {
    forall k :: k in m ==> k in n && n[k].Deviation() <= m[k].Deviation()
  }

  lemma ImprovesOn(a: Walks, b: Walks, c: Walks)
    requires Improved(a, b) && Improved(b, c)
    ensures Improved(a, c)
  {
  }

  /** How every walk in flight came about. */
  type Reasons = map<Key, seq<Move>>

  ghost predicate AllJustified(input: string, repl: map<char, seq<char>>, paths: seq<string>, m: Walks, why: Reasons, end: nat) {
    && why.Keys == m.Keys && Filed(m)
    && forall k :: k in m ==> Justified(input, repl, paths, m[k], why[k], end)
  }

  ghost function Explain(m: Walks, pm: Walk, why: Reasons, moves: seq<Move>): Reasons {
    if pm.Place() in m && pm.Deviation() >= m[pm.Place()].Deviation() then why else why[pm.Place() := moves]
  }

  lemma AddJustified(input: string, repl: map<char, seq<char>>, paths: seq<string>, m: Walks, why: Reasons, end: nat, pm: Walk, moves: seq<Move>)
    requires AllJustified(input, repl, paths, m, why, end) && Justified(input, repl, paths, pm, moves, end)
    ensures AllJustified(input, repl, paths, AddTo(m, pm), Explain(m, pm, why, moves), end)
    ensures Improved(m, AddTo(m, pm))
    ensures pm.Place() in AddTo(m, pm) && AddTo(m, pm)[pm.Place()].Deviation() <= pm.Deviation()
  {
    hide Justified;
  }

  /** The place is walked, straying no further than that. */
  ghost predicate Walked(m: Walks, node: nat, start: nat, cost: nat) {
    Key(node, start) in m && m[Key(node, start)].Deviation() <= cost
  }

  /** Whatever moves up to `end` lead to a node, within what is put up with, that node is walked at no greater cost. */
  ghost predicate AllWalked(input: string, repl: map<char, seq<char>>, paths: seq<string>, m: Walks, end: nat, from: nat) {
    forall p: nat, n: nat, moves ::
      p < from && n < |paths| && p + |moves| == end <= |input| && LeadsTo(input, repl, paths[n], p, moves) ==>
        Walked(m, n, p, Cost(input, p, moves))
  }

  /** The dictionary and the substitutions. */
  class Censor {
    const trie: Trie
    var repl: map<char, seq<char>>

    ghost predicate Valid()
      reads this, trie
    {
      trie.Valid() && StandsForItself(repl)
    }

    constructor ()
      ensures Valid() && fresh(trie) && trie.dict == map[] && repl == map[]
    {
      trie := new Trie();
      repl := map[];
    }

    /** A character's substitutes, itself first and none twice. */
    method AddReplacement(src: char, alternatives: string)
      requires Valid()
      modifies this
      ensures Valid() && repl.Keys == old(repl).Keys + {src}
      ensures |repl[src]| >= 1 && repl[src][0] == src && forall c :: c in repl[src] <==> c == src || c in alternatives
      ensures NoneTwice(repl[src])
    {
      hide ValidTrie, Lists;
      var vals := Substitutes(src, alternatives);
      repl := repl[src := vals];
    }

    /** Adds a word to the dictionary, unless it is blank. */
    method AddWord(word: string, typ: Type)
      requires Valid()
      modifies trie
      ensures Valid()
      ensures trie.dict == if forall c :: c in word ==> c == ' ' then old(trie.dict)
                           else old(trie.dict)[word := (if word in old(trie.dict) then old(trie.dict)[word] else NONE) + typ]
    {
      var blank := true;
      for i := 0 to |word|
        invariant blank ==> forall j :: 0 <= j < i ==> word[j] == ' '
        invariant !blank ==> exists j :: 0 <= j < i && word[j] != ' '
      {
        if word[i] != ' ' {
          blank := false;
        }
      }
      if !blank {
        ghost var j :| 0 <= j < |word| && word[j] != ' ';
        assert word[j] in word;
        trie.Add(word, typ);
      }
    }

    /** Files a walk, with the moves that justify it. */
    method File(input: string, ghost paths: seq<string>, m: Walks, ghost why: Reasons, ghost end: nat, pm: Walk, ghost moves: seq<Move>)
      returns (n: Walks, ghost because: Reasons)
      requires AllJustified(input, repl, paths, m, why, end) && Justified(input, repl, paths, pm, moves, end)
      ensures AllJustified(input, repl, paths, n, because, end) && Improved(m, n)
      ensures pm.Place() in n && n[pm.Place()].Deviation() <= pm.Deviation()
    {
      hide Justified, AllJustified, Improved;
      AddJustified(input, repl, paths, m, why, end, pm, moves);
      n, because := AddTo(m, pm), Explain(m, pm, why, moves);
    }

    /** The ways a walk may go on without reading: absorbing a repeat, matching a boundary, skipping punctuation. */
    method Linger(input: string, i: nat, m: Walk, ghost moves: seq<Move>, next0: Walks, ghost why0: Reasons)
      returns (next: Walks, ghost why: Reasons)
      requires Valid() && i < |input| && Justified(input, repl, trie.paths, m, moves, i)
      requires AllJustified(input, repl, trie.paths, next0, why0, i + 1)
      ensures AllJustified(input, repl, trie.paths, next, why, i + 1) && Improved(next0, next)
      ensures Lingered(trie.nodes, m, input[i], next)
    {
      hide Justified, AllJustified, Improved, ValidTrie, Lists;
      next, why := next0, why0;
      var r := input[i];
      WithinTrie(input, repl, trie.nodes, trie.paths, m, moves, i);
      SameWalks(next0);
      if IsAlnum(r) && r as int == m.lastRaw && m.repeats < MAX_REPEATS {
        Repeatable(input, repl, trie.paths, m, moves, i);
        OneMore(input, repl, trie.paths, m, moves, i, Repeat, 0);
        next, why := File(input, trie.paths, next, why, i + 1, Moved(m, Repeat, r, i, 0), moves + [Repeat]);
      }
      if !IsAlnum(r) && ' ' in trie.nodes[m.node].children {
        var child := trie.nodes[m.node].children[' '];
        Child(trie.nodes, trie.paths, m.node, ' ');
        OneMore(input, repl, trie.paths, m, moves, i, Boundary, child);
        ghost var before := next;
        next, why := File(input, trie.paths, next, why, i + 1, Moved(m, Boundary, r, i, child), moves + [Boundary]);
        ImprovesOn(next0, before, next);
        StillWalked(before, next);
      }
      if !IsAlnum(r) && r != ' ' && m.skips + 1 <= trie.nodes[m.node].depth + 2 {
        OneMore(input, repl, trie.paths, m, moves, i, Skip, 0);
        ghost var before := next;
        next, why := File(input, trie.paths, next, why, i + 1, Moved(m, Skip, r, i, 0), moves + [Skip]);
        ImprovesOn(next0, before, next);
        StillWalked(before, next);
      }
    }

    /** Going on through the trie by every character the input character could stand for. */
    method Spread(input: string, i: nat, m: Walk, ghost moves: seq<Move>, next0: Walks, ghost why0: Reasons)
      returns (next: Walks, ghost why: Reasons)
      requires Valid() && i < |input| && Justified(input, repl, trie.paths, m, moves, i)
      requires AllJustified(input, repl, trie.paths, next0, why0, i + 1)
      ensures AllJustified(input, repl, trie.paths, next, why, i + 1) && Improved(next0, next)
      ensures SpreadOut(trie.nodes, m, input[i], Expand(repl, input[i]), next)
    {
      hide Justified, AllJustified, Improved, ValidTrie, Lists;
      next, why := next0, why0;
      var r := input[i];
      WithinTrie(input, repl, trie.nodes, trie.paths, m, moves, i);
      SameWalks(next0);
      var choices := Expand(repl, r);
      for j := 0 to |choices|
        invariant AllJustified(input, repl, trie.paths, next, why, i + 1) && Improved(next0, next)
        invariant SpreadOut(trie.nodes, m, r, choices[..j], next)
      {
        var cnd := choices[j];
        assert choices[..j + 1] == choices[..j] + [cnd];
        ghost var before := next;
        if cnd in trie.nodes[m.node].children {
          var child := trie.nodes[m.node].children[cnd];
          Child(trie.nodes, trie.paths, m.node, cnd);
          Deeper(trie.nodes, trie.paths, m.node, child, cnd);
          var nm := Moved(m, Read(cnd), r, i, child);
          if nm.repl <= trie.nodes[child].depth + 1 {
            OneMore(input, repl, trie.paths, m, moves, i, Read(cnd), child);
            next, why := File(input, trie.paths, next, why, i + 1, nm, moves + [Read(cnd)]);
            ImprovesOn(next0, before, next);
            StillWalked(before, next);
          }
        }
      }
      assert choices[..|choices|] == choices;
    }

    /** One input character, for every walk in flight, in whatever order they come. */
    method Advance(input: string, i: nat, active: Walks, ghost why0: Reasons) returns (next: Walks, ghost why: Reasons)
      requires Valid() && i < |input| && AllJustified(input, repl, trie.paths, active, why0, i)
      requires AllWalked(input, repl, trie.paths, active, i, i + 1)
      ensures AllJustified(input, repl, trie.paths, next, why, i + 1)
      ensures AllWalked(input, repl, trie.paths, next, i + 1, i + 1)
    {
      hide Justified, AllJustified, Improved, ValidTrie, Lists, AllWalked, Lingered, SpreadOut;
      next, why := map[], map[];
      NothingWalks(input, repl, trie.paths, i + 1);
      KeysOf(input, repl, trie.paths, active, why0, i);
      var keys := active.Keys;
      ghost var done: set<Key> := {};
      while keys != {}
        invariant keys <= active.Keys && done == active.Keys - keys
        invariant AllJustified(input, repl, trie.paths, next, why, i + 1)
        invariant forall k :: k in done ==> CarriedOn(trie.nodes, repl, active[k], input[i], next)
        decreases |keys|
      {
        var k :| k in keys;
        keys, done := keys - {k}, done + {k};
        ghost var before := next;
        JustifiedAt(input, repl, trie.paths, active, why0, i, k);
        next, why := Linger(input, i, active[k], why0[k], next, why);
        ghost var mid := next;
        next, why := Spread(input, i, active[k], why0[k], next, why);
        ImprovesOn(before, mid, next);
        forall j | j in done ensures CarriedOn(trie.nodes, repl, active[j], input[i], next) {
          CarriesOn(trie.nodes, repl, active[j], input[i], if j == k then mid else before, next);
        }
      }
      Carried(input, repl, trie.nodes, trie.paths, active, why0, next, i);
    }

    /** The spans of all the walks that have spelled a word. */
    method Harvest(input: string, ghost end: nat, active: Walks, ghost why: Reasons) returns (spans: seq<Span>)
      requires Valid() && AllJustified(input, repl, trie.paths, active, why, end) && end <= |input|
      requires AllWalked(input, repl, trie.paths, active, end, end)
      ensures forall s :: s in spans ==> Match(input, repl, trie.dict, s)
      ensures forall w, p: nat, moves :: w in trie.dict && p + |moves| == end && FirstAlnum(w) >= 0 && Tolerable(input, repl, w, p, moves) ==>
                Found(spans, trie.dict[w], p, end)
      ensures forall w, p: nat :: w in trie.dict && p + |w| == end && w != "" && FirstAlnum(w) >= 0 && Occurs(input, w, p) ==>
                Extent(w, p, trie.dict[w]) in spans
    {
      hide Justified, AllJustified, AllWalked, Tolerable, ValidTrie, Match, Lists, Spells, SpanOf;
      spans := [];
      KeysOf(input, repl, trie.paths, active, why, end);
      var keys := active.Keys;
      ghost var done: set<Key> := {};
      while keys != {}
        invariant keys <= active.Keys && done == active.Keys - keys
        invariant forall s :: s in spans ==> Match(input, repl, trie.dict, s)
        invariant forall k :: k in done ==> Reported(trie.nodes, active[k], spans)
        decreases |keys|
      {
        var k :| k in keys;
        keys, done := keys - {k}, done + {k};
        JustifiedAt(input, repl, trie.paths, active, why, end, k);
        WithinTrie(input, repl, trie.nodes, trie.paths, active[k], why[k], end);
        if Spells(trie.nodes, active[k]) {
          Counted(input, repl, trie.nodes, trie.paths, trie.dict, active[k], why[k], end);
          spans := spans + [SpanOf(trie.nodes, active[k])];
        }
      }
      forall w, p: nat | w in trie.dict && p + |w| == end && w != "" && FirstAlnum(w) >= 0 && Occurs(input, w, p)
        ensures Extent(w, p, trie.dict[w]) in spans
      {
        var k := HarvestedLiterally(input, repl, trie.nodes, trie.paths, trie.dict, active, why, end, w, p);
      }
      forall w, p: nat, moves | w in trie.dict && p + |moves| == end && FirstAlnum(w) >= 0 && Tolerable(input, repl, w, p, moves)
        ensures Found(spans, trie.dict[w], p, end)
      {
        var k := Harvested(input, repl, trie.nodes, trie.paths, trie.dict, active, why, end, w, p, moves);
        assert SpanOf(trie.nodes, active[k]) in spans;
      }
    }

    /**
      * The whole walk. Every span recorded is a match; every word of the dictionary that occurs literally and has a
      * letter or digit is recorded, whatever the order of the walks; and the outcome is the types of the matches
      * that no allow-listed or false-positive match covers. So a type is reported only for a match that no benign
      * word, standing there literally, covers, and the types of a flagged word standing there literally are always
      * reported, unless a benign match covers it.
      */
    method Analyze(lowered: string) returns (out: Type, ghost spans: seq<Span>)
      requires Valid()
      ensures forall s :: s in spans ==> Match(Padded(lowered), repl, trie.dict, s)
      ensures forall w, p: nat :: w in trie.dict && FirstAlnum(w) >= 0 && Occurs(Padded(lowered), w, p) ==>
                Extent(w, p, trie.dict[w]) in spans
      ensures forall w, p: nat, moves :: w in trie.dict && FirstAlnum(w) >= 0 && Tolerable(Padded(lowered), repl, w, p, moves) ==>
                Found(spans, trie.dict[w], p, p + |moves|)
      ensures forall bit :: bit in out <==> exists s :: s in spans && Flagged(s) && bit in s.typ && !Covered(spans, s)
      ensures forall bit :: bit in out ==> exists s :: Guilty(Padded(lowered), repl, trie.dict, s, bit)
      ensures forall w, p: nat :: Undeniable(Padded(lowered), repl, trie.dict, w, p) ==> trie.dict[w] <= out
      ensures forall w, p: nat, moves :: Inescapable(Padded(lowered), repl, trie.dict, w, p, moves) ==> trie.dict[w] <= out
    {
      hide Justified, AllJustified, AllWalked, Tolerable, ValidTrie, Match, Lists;
      var input := Padded(lowered);
      var active: Walks := map[];
      ghost var why: Reasons := map[];
      var found: seq<Span> := [];
      NothingWalks(input, repl, trie.paths, 0);
      NothingBefore(input, repl, trie.paths, active);
      Takes(input, repl);
      for i := 0 to |input|
        invariant AllJustified(input, repl, trie.paths, active, why, i)
        invariant AllWalked(input, repl, trie.paths, active, i, i)
        invariant forall s :: s in found ==> Match(input, repl, trie.dict, s)
        invariant forall w, p: nat :: w in trie.dict && p + |w| <= i && FirstAlnum(w) >= 0 && Occurs(input, w, p) ==>
                    Extent(w, p, trie.dict[w]) in found
        invariant forall w, p: nat, moves ::
                    w in trie.dict && p + |moves| <= i && FirstAlnum(w) >= 0 && Tolerable(input, repl, w, p, moves) ==>
                      Found(found, trie.dict[w], p, p + |moves|)
      {
        Seeded(input, repl, trie.nodes, trie.paths, active, why, i);
        active, why := active[Key(0, i) := Seed(i)], why[Key(0, i) := []];
        active, why := Advance(input, i, active, why);
        var more := Harvest(input, i + 1, active, why);
        FoundStill(found, more);
        found := found + more;
      }
      spans := found;
      out := Resolve(found);
      Judged(input, repl, trie.dict, found, out);
      JudgedToo(input, repl, trie.dict, found, out);
    }

    /** The verdict: is any type that is found one of those rejected? */
    method IsInappropriate(lowered: string) returns (rejected: bool)
      requires Valid()
      ensures rejected ==> exists s, bit :: bit in INAPPROPRIATE && Guilty(Padded(lowered), repl, trie.dict, s, bit)
      ensures forall w, p: nat :: Undeniable(Padded(lowered), repl, trie.dict, w, p) && trie.dict[w] * INAPPROPRIATE != {} ==> rejected
      ensures forall w, p: nat, moves :: Inescapable(Padded(lowered), repl, trie.dict, w, p, moves) && trie.dict[w] * INAPPROPRIATE != {} ==> rejected
    {
      hide Guilty, Match, Tolerable;
      var out;
      ghost var spans;
      out, spans := Analyze(lowered);
      rejected := out * INAPPROPRIATE != {};
      if rejected {
        ghost var bit :| bit in out * INAPPROPRIATE;
        assert bit in INAPPROPRIATE && bit in out;
      }
      forall w, p: nat | Undeniable(Padded(lowered), repl, trie.dict, w, p) && trie.dict[w] * INAPPROPRIATE != {} ensures rejected {
        ghost var bit :| bit in trie.dict[w] * INAPPROPRIATE;
        assert bit in out * INAPPROPRIATE;
      }
      forall w, p: nat, moves | Inescapable(Padded(lowered), repl, trie.dict, w, p, moves) && trie.dict[w] * INAPPROPRIATE != {} ensures rejected {
        ghost var bit :| bit in trie.dict[w] * INAPPROPRIATE;
        assert bit in out * INAPPROPRIATE;
      }
    }
  }

  /** A literal occurrence of a benign word with a letter or digit. */
  ghost predicate Excuse(input: string, dict: map<string, Type>, w: string, p: nat) {
    w in dict && FirstAlnum(w) >= 0 && Occurs(input, w, p) && Benign(Extent(w, p, dict[w]))
  }

  /** A flagged match of the given type that no benign word, standing there literally, covers. */
  ghost predicate Guilty(input: string, repl: map<char, seq<char>>, dict: map<string, Type>, s: Span, bit: nat) {
    && Match(input, repl, dict, s) && Flagged(s) && bit in s.typ
    && forall w, p: nat :: Excuse(input, dict, w, p) ==> !Covers(Extent(w, p, dict[w]), s)
  }

  /** A literal occurrence of a flagged word that no benign match covers. */
  ghost predicate Undeniable(input: string, repl: map<char, seq<char>>, dict: map<string, Type>, w: string, p: nat) {
    && w in dict && FirstAlnum(w) >= 0 && Occurs(input, w, p) && Flagged(Extent(w, p, dict[w]))
    && forall f :: Match(input, repl, dict, f) ==> !Covers(f, Extent(w, p, dict[w]))
  }

  /** A match of the given type lies within the stretch. */
  ghost predicate Found(spans: seq<Span>, typ: Type, start: nat, end: nat) {
    exists s :: s in spans && s.typ == typ && start <= s.start && s.end <= end
  }

  lemma FoundStill(spans: seq<Span>, more: seq<Span>)
    ensures forall typ, start: nat, end: nat :: Found(spans, typ, start, end) ==> Found(spans + more, typ, start, end)
    ensures forall typ, start: nat, end: nat :: Found(more, typ, start, end) ==> Found(spans + more, typ, start, end)
  {
  }

  /** A flagged word is tolerably spelled there, and no benign match covers a match of its type in that stretch. */
  ghost predicate Inescapable(input: string, repl: map<char, seq<char>>, dict: map<string, Type>, w: string, p: nat, moves: seq<Move>) {
    && w in dict && dict[w] * ANY != {} && FirstAlnum(w) >= 0 && Tolerable(input, repl, w, p, moves)
    && forall f, s :: Match(input, repl, dict, f) && Match(input, repl, dict, s) && Covers(f, s) ==>
                        s.typ != dict[w] || s.start < p || p + |moves| < s.end
  }

  lemma JudgedToo(input: string, repl: map<char, seq<char>>, dict: map<string, Type>, spans: seq<Span>, out: Type)
    requires forall s :: s in spans ==> Match(input, repl, dict, s)
    requires forall w, p: nat, moves :: w in dict && FirstAlnum(w) >= 0 && Tolerable(input, repl, w, p, moves) ==>
               Found(spans, dict[w], p, p + |moves|)
    requires forall bit :: bit in out <==> exists s :: s in spans && Flagged(s) && bit in s.typ && !Covered(spans, s)
    ensures forall w, p: nat, moves :: Inescapable(input, repl, dict, w, p, moves) ==> dict[w] <= out
  {
    hide Match, Tolerable;
    forall w, p: nat, moves | Inescapable(input, repl, dict, w, p, moves) ensures dict[w] <= out {
      var s :| s in spans && s.typ == dict[w] && p <= s.start && s.end <= p + |moves|;
      assert Flagged(s) && !Covered(spans, s);
    }
  }

  /** What cancellation by the recorded spans says about matches and literal occurrences. */
  lemma Judged(input: string, repl: map<char, seq<char>>, dict: map<string, Type>, spans: seq<Span>, out: Type)
    requires forall s :: s in spans ==> Match(input, repl, dict, s)
    requires forall w, p: nat :: w in dict && FirstAlnum(w) >= 0 && Occurs(input, w, p) ==> Extent(w, p, dict[w]) in spans
    requires forall bit :: bit in out <==> exists s :: s in spans && Flagged(s) && bit in s.typ && !Covered(spans, s)
    ensures forall bit :: bit in out ==> exists s :: Guilty(input, repl, dict, s, bit)
    ensures forall w, p: nat :: Undeniable(input, repl, dict, w, p) ==> dict[w] <= out
  {
    hide Match;
    forall bit | bit in out ensures exists s :: Guilty(input, repl, dict, s, bit) {
      var s :| s in spans && Flagged(s) && bit in s.typ && !Covered(spans, s);
      forall w, p: nat | Excuse(input, dict, w, p) ensures !Covers(Extent(w, p, dict[w]), s) {
        assert Extent(w, p, dict[w]) in spans;
      }
      assert Guilty(input, repl, dict, s, bit);
    }
    forall w, p: nat | Undeniable(input, repl, dict, w, p) ensures dict[w] <= out {
      var s := Extent(w, p, dict[w]);
      assert s in spans && !Covered(spans, s);
    }
  }

  ghost predicate NoneTwice(vals: seq<char>) {
    forall i, j :: 0 <= i < j < |vals| ==> vals[i] != vals[j]
  }

  method Substitutes(src: char, alternatives: string) returns (vals: seq<char>)
    ensures |vals| >= 1 && vals[0] == src && NoneTwice(vals) && forall c :: c in vals <==> c == src || c in alternatives
  {
    vals := [src];
    for i := 0 to |alternatives|
      invariant |vals| >= 1 && vals[0] == src && NoneTwice(vals)
      invariant forall c :: c in vals <==> c == src || c in alternatives[..i]
    {
      assert alternatives[..i + 1] == alternatives[..i] + [alternatives[i]];
      if alternatives[i] !in vals {
        vals := vals + [alternatives[i]];
      }
    }
    assert alternatives[..|alternatives|] == alternatives;
  }

  /** The input between two separators, so that its ends are word boundaries. */
  function Padded(lowered: string): string {
    " " + lowered + " "
  }

  lemma StillWalked(m: Walks, n: Walks)
    requires Improved(m, n)
    ensures forall node, start, cost :: Walked(m, node, start, cost) ==> Walked(n, node, start, cost)
  {
  }

  /** Whatever a walk may take without reading is filed: a repeat, a boundary, a skipped separator. */
  ghost predicate Lingered(nodes: seq<Node>, m: Walk, r: char, next: Walks) {
    && m.node < |nodes|
    && (IsAlnum(r) && r as int == m.lastRaw && m.repeats < MAX_REPEATS ==> Walked(next, m.node, m.start, m.Deviation() + 1))
    && (!IsAlnum(r) && ' ' in nodes[m.node].children ==> Walked(next, nodes[m.node].children[' '], m.start, m.Deviation()))
    && (!IsAlnum(r) && r != ' ' && m.skips < nodes[m.node].depth + 2 ==> Walked(next, m.node, m.start, m.Deviation() + 1))
  }

  /** So is reading on by each of these characters, at the price of one if it stands for another. */
  ghost predicate SpreadOut(nodes: seq<Node>, m: Walk, r: char, choices: seq<char>, next: Walks) {
    && m.node < |nodes|
    && forall c :: c in choices && c in nodes[m.node].children && m.repl + Price(c, r) <= nodes[m.node].depth + 2 ==>
         Walked(next, nodes[m.node].children[c], m.start, m.Deviation() + Price(c, r))
  }

  function Price(c: char, r: char): nat {
    if c != r then 1 else 0
  }

  /** A walk goes on in every way it may. */
  ghost predicate CarriedOn(nodes: seq<Node>, repl: map<char, seq<char>>, m: Walk, r: char, next: Walks) {
    Lingered(nodes, m, r, next) && SpreadOut(nodes, m, r, Expand(repl, r), next)
  }

  lemma CarriesOn(nodes: seq<Node>, repl: map<char, seq<char>>, m: Walk, r: char, before: Walks, next: Walks)
    requires Improved(before, next)
    ensures Lingered(nodes, m, r, before) ==> Lingered(nodes, m, r, next)
    ensures SpreadOut(nodes, m, r, Expand(repl, r), before) ==> SpreadOut(nodes, m, r, Expand(repl, r), next)
  {
    StillWalked(before, next);
  }

  function SpanOf(nodes: seq<Node>, m: Walk): Span
    requires m.node < |nodes|
  {
    Span(m.firstAlnum, m.lastAlnum + 1, nodes[m.node].typ)
  }

  ghost predicate Reported(nodes: seq<Node>, m: Walk, spans: seq<Span>) {
    m.node < |nodes| && Spells(nodes, m) ==> SpanOf(nodes, m) in spans
  }

  predicate Spells(nodes: seq<Node>, m: Walk)
    requires m.node < |nodes|
  {
    nodes[m.node].word && Acceptable(m, nodes[m.node].depth)
  }

  lemma WithinTrie(input: string, repl: map<char, seq<char>>, nodes: seq<Node>, paths: seq<string>, m: Walk, moves: seq<Move>, end: nat)
    requires ValidTrie(nodes, paths) && Justified(input, repl, paths, m, moves, end)
    ensures m.node < |nodes| == |paths| && nodes[m.node].depth == |paths[m.node]|
  {
  }

  lemma SameWalks(m: Walks)
    ensures Improved(m, m)
  {
  }

  lemma Deeper(nodes: seq<Node>, paths: seq<string>, n: nat, child: nat, c: char)
    requires ValidTrie(nodes, paths) && n < |nodes| && child < |nodes| && paths[child] == paths[n] + [c]
    ensures nodes[child].depth == nodes[n].depth + 1
  {
  }

  lemma NothingWalks(input: string, repl: map<char, seq<char>>, paths: seq<string>, end: nat)
    ensures AllJustified(input, repl, paths, map[], map[], end)
  {
  }

  lemma NothingBefore(input: string, repl: map<char, seq<char>>, paths: seq<string>, m: Walks)
    ensures AllWalked(input, repl, paths, m, 0, 0)
  {
  }

  lemma KeysOf(input: string, repl: map<char, seq<char>>, paths: seq<string>, m: Walks, why: Reasons, end: nat)
    requires AllJustified(input, repl, paths, m, why, end)
    ensures why.Keys == m.Keys && forall k :: k in m ==> m[k].Place() == k
  {
  }

  lemma JustifiedAt(input: string, repl: map<char, seq<char>>, paths: seq<string>, m: Walks, why: Reasons, end: nat, k: Key)
    requires AllJustified(input, repl, paths, m, why, end) && k in m
    ensures k in why && Justified(input, repl, paths, m[k], why[k], end)
  {
  }

  /** A fresh walk is seeded at every position. */
  lemma Seeded(input: string, repl: map<char, seq<char>>, nodes: seq<Node>, paths: seq<string>, m: Walks, why: Reasons, i: nat)
    requires ValidTrie(nodes, paths) && AllJustified(input, repl, paths, m, why, i) && AllWalked(input, repl, paths, m, i, i) && i <= |input|
    ensures AllJustified(input, repl, paths, m[Key(0, i) := Seed(i)], why[Key(0, i) := []], i)
    ensures AllWalked(input, repl, paths, m[Key(0, i) := Seed(i)], i, i + 1)
  {
    SeedJustified(input, repl, paths, i);
    OnlyRoot(nodes, paths);
    hide Justified, ValidTrie, AllWalked;
    SeedWalked(input, repl, paths, m, i);
  }

  lemma SeedWalked(input: string, repl: map<char, seq<char>>, paths: seq<string>, m: Walks, i: nat)
    requires AllWalked(input, repl, paths, m, i, i) && forall n: nat :: n < |paths| && |paths[n]| == 0 ==> n == 0
    ensures AllWalked(input, repl, paths, m[Key(0, i) := Seed(i)], i, i + 1)
  {
    assert Seed(i).Deviation() == 0;
    forall p: nat, n: nat, moves | p < i + 1 && n < |paths| && p + |moves| == i <= |input| && LeadsTo(input, repl, paths[n], p, moves)
      ensures Walked(m[Key(0, i) := Seed(i)], n, p, Cost(input, p, moves))
    {
      if p == i {
        assert |paths[n]| == 0;
      } else {
        assert Walked(m, n, p, Cost(input, p, moves));
      }
    }
  }

  lemma OnlyRoot(nodes: seq<Node>, paths: seq<string>)
    requires ValidTrie(nodes, paths)
    ensures forall n: nat :: n < |paths| && |paths[n]| == 0 ==> n == 0
  {
    forall n: nat | n < |paths| && |paths[n]| == 0 ensures n == 0 {
      assert paths[n] == "";
    }
  }

  /** Whatever leads to a node up to a character, and goes on with it, is walked no dearer beyond it. */
  lemma Carried(input: string, repl: map<char, seq<char>>, nodes: seq<Node>, paths: seq<string>, active: Walks, why: Reasons, next: Walks, i: nat)
    requires ValidTrie(nodes, paths) && i < |input| && AllJustified(input, repl, paths, active, why, i)
    requires AllWalked(input, repl, paths, active, i, i + 1)
    requires forall k :: k in active ==> CarriedOn(nodes, repl, active[k], input[i], next)
    ensures AllWalked(input, repl, paths, next, i + 1, i + 1)
  {
    hide Justified, LeadsTo, AllJustified, ValidTrie, CarriedOn, Walked;
    forall p: nat, n: nat, moves | p < i + 1 && n < |paths| && p + |moves| == i + 1 <= |input| && LeadsTo(input, repl, paths[n], p, moves)
      ensures Walked(next, n, p, Cost(input, p, moves))
    {
      var m := OneBefore(input, repl, nodes, paths, n, p, moves);
      var before := moves[..|moves| - 1];
      assert Walked(active, m, p, Cost(input, p, before));
      WalkAt(input, repl, paths, active, why, i, m, p, Cost(input, p, before));
      Onward(input, repl, nodes, paths, active[Key(m, p)], why[Key(m, p)], next, m, n, p, moves);
    }
  }

  lemma WalkAt(input: string, repl: map<char, seq<char>>, paths: seq<string>, m: Walks, why: Reasons, end: nat, node: nat, p: nat, cost: nat)
    requires AllJustified(input, repl, paths, m, why, end) && Walked(m, node, p, cost)
    ensures var k := Key(node, p);
            k in m && k in why && m[k].Place() == k && m[k].Deviation() <= cost && Justified(input, repl, paths, m[k], why[k], end)
  {
    hide Justified;
  }

  /** The node the moves had led to before the last of them. */
  lemma OneBefore(input: string, repl: map<char, seq<char>>, nodes: seq<Node>, paths: seq<string>, n: nat, p: nat, moves: seq<Move>)
    returns (m: nat)
    requires ValidTrie(nodes, paths) && n < |paths| && moves != [] && LeadsTo(input, repl, paths[n], p, moves)
    ensures m < |paths| == |nodes| && nodes[m].depth == |paths[m]|
    ensures LeadsTo(input, repl, paths[m], p, moves[..|moves| - 1])
    ensures match moves[|moves| - 1]
            case Boundary => ' ' in nodes[m].children && nodes[m].children[' '] == n
            case Read(c) => c in nodes[m].children && nodes[m].children[c] == n
            case _ => m == n
  {
    Prefix(input, repl, paths[n], p, moves);
    Root(nodes, paths);
    var move, before := moves[|moves| - 1], Spelled(moves[..|moves| - 1]);
    assert paths[n] == Spelled(moves) by { hide ValidTrie; }
    hide ValidTrie, LeadsTo;
    if move.Boundary? || move.Read? {
      m := PrefixNode(nodes, paths, n);
      assert paths[n] == before + [paths[n][|paths[n]| - 1]];
      assert paths[m] == before;
    } else {
      m := n;
      assert paths[n] == before;
    }
  }

  /** From there the walk that was kept goes the same way, at no greater cost. */
  lemma Onward(input: string, repl: map<char, seq<char>>, nodes: seq<Node>, paths: seq<string>, m: Walk, why: seq<Move>, next: Walks,
               node: nat, n: nat, p: nat, moves: seq<Move>)
    requires |nodes| == |paths| && node < |nodes| && n < |nodes| && nodes[node].depth == |paths[node]|
    requires moves != [] && LeadsTo(input, repl, paths[n], p, moves) && LeadsTo(input, repl, paths[node], p, moves[..|moves| - 1])
    requires m.Place() == Key(node, p) && m.Deviation() <= Cost(input, p, moves[..|moves| - 1])
    requires Justified(input, repl, paths, m, why, p + |moves| - 1) && CarriedOn(nodes, repl, m, input[p + |moves| - 1], next)
    requires match moves[|moves| - 1]
             case Boundary => ' ' in nodes[node].children && nodes[node].children[' '] == n
             case Read(c) => c in nodes[node].children && nodes[node].children[c] == n
             case _ => node == n
    ensures Walked(next, n, p, Cost(input, p, moves))
  {
    var move, r := moves[|moves| - 1], input[p + |moves| - 1];
    Prefix(input, repl, paths[n], p, moves);
    match move {
      case Repeat =>
        assert why != [] && m.lastRaw == r as int;
      case Boundary =>
      case Skip =>
      case Read(c) =>
        assert |paths[n]| == |paths[node]| + 1;
    }
  }

  lemma Counted(input: string, repl: map<char, seq<char>>, nodes: seq<Node>, paths: seq<string>, dict: map<string, Type>, m: Walk, moves: seq<Move>, end: nat)
    requires ValidTrie(nodes, paths) && Lists(nodes, paths, dict) && Justified(input, repl, paths, m, moves, end)
    requires m.node < |nodes| && Spells(nodes, m)
    ensures Match(input, repl, dict, SpanOf(nodes, m))
  {
    hide Match, Justified, ValidTrie, Lists;
    Entry(nodes, paths, dict, m.node);
    WalkMatches(input, repl, paths, dict, m, moves, end, nodes[m.node].typ);
  }

  /** A word's node carries its dictionary entry. */
  lemma Entry(nodes: seq<Node>, paths: seq<string>, dict: map<string, Type>, n: nat)
    requires ValidTrie(nodes, paths) && Lists(nodes, paths, dict) && n < |nodes| && nodes[n].word
    ensures |paths| == |nodes| && paths[n] in dict && nodes[n].typ == dict[paths[n]] && nodes[n].depth == |paths[n]|
  {
  }

  /** A word tolerably spelled up to here is among the spans of the walks that have spelled a word. */
  lemma Harvested(input: string, repl: map<char, seq<char>>, nodes: seq<Node>, paths: seq<string>, dict: map<string, Type>,
                  active: Walks, why: Reasons, end: nat, w: string, p: nat, moves: seq<Move>) returns (k: Key)
    requires ValidTrie(nodes, paths) && Lists(nodes, paths, dict) && AllJustified(input, repl, paths, active, why, end)
    requires AllWalked(input, repl, paths, active, end, end) && end <= |input|
    requires w in dict && p + |moves| == end && FirstAlnum(w) >= 0 && Tolerable(input, repl, w, p, moves)
    ensures k in active && k in why && active[k].node < |nodes| == |paths| && Spells(nodes, active[k])
    ensures paths[active[k].node] == w && active[k].start == p && Justified(input, repl, paths, active[k], why[k], end)
    ensures active[k].Deviation() <= Cost(input, p, moves)
    ensures var s := SpanOf(nodes, active[k]); s.typ == dict[w] && p <= s.start && s.end <= end
  {
    var n := Listed(nodes, paths, dict, w);
    assert moves != [];
    assert Walked(active, n, p, Cost(input, p, moves));
    hide ValidTrie, Lists, AllJustified, AllWalked, Justified;
    k := Key(n, p);
    WalkAt(input, repl, paths, active, why, end, n, p, Cost(input, p, moves));
    CheapEnough(input, repl, paths, active[k], why[k], end);
  }

  /** A word that stands there literally is found just where it stands. */
  lemma HarvestedLiterally(input: string, repl: map<char, seq<char>>, nodes: seq<Node>, paths: seq<string>, dict: map<string, Type>,
                           active: Walks, why: Reasons, end: nat, w: string, p: nat) returns (k: Key)
    requires ValidTrie(nodes, paths) && Lists(nodes, paths, dict) && AllJustified(input, repl, paths, active, why, end)
    requires AllWalked(input, repl, paths, active, end, end) && end <= |input| && StandsForItself(repl)
    requires w in dict && p + |w| == end && FirstAlnum(w) >= 0 && Occurs(input, w, p)
    ensures k in active && active[k].node < |nodes| && Spells(nodes, active[k]) && SpanOf(nodes, active[k]) == Extent(w, p, dict[w])
  {
    hide ValidTrie, Lists, AllJustified, AllWalked, Justified, Tolerable, Spells;
    LiteralIsTolerable(input, repl, w, p);
    k := Harvested(input, repl, nodes, paths, dict, active, why, end, w, p, Literal(w));
    LiteralExtent(input, repl, paths, active[k], why[k], end, dict[w]);
  }

  lemma Listed(nodes: seq<Node>, paths: seq<string>, dict: map<string, Type>, w: string) returns (n: nat)
    requires ValidTrie(nodes, paths) && Lists(nodes, paths, dict) && w in dict
    ensures n < |paths| == |nodes| && paths[n] == w && nodes[n].word && nodes[n].typ == dict[w] && nodes[n].depth == |w|
  {
    n :| n < |paths| && paths[n] == w;
  }

  // ----- Cancellation

  /** A match of a word that is anything but benign. */
  predicate Flagged(s: Span) {
    s.typ * ANY != {}
  }

  /** A match of a false positive or of an allow-listed word. */
  predicate Benign(s: Span) {
    s.typ == NONE || SAFE in s.typ
  }

  predicate Covers(f: Span, s: Span) {
    Benign(f) && f.start <= s.start && s.end <= f.end
  }

  ghost predicate Covered(spans: seq<Span>, s: Span) {
    exists f :: f in spans && Covers(f, s)
  }

  method IsCovered(spans: seq<Span>, s: Span) returns (covered: bool)
    ensures covered <==> Covered(spans, s)
  {
    for i := 0 to |spans|
      invariant forall f :: f in spans[..i] ==> !Covers(f, s)
    {
      if Covers(spans[i], s) {
        return true;
      }
    }
    assert spans[..|spans|] == spans;
    return false;
  }

  /** The types of every flagged match that is not wholly within a benign one. */
  method Resolve(spans: seq<Span>) returns (out: Type)
    ensures forall bit :: bit in out <==> exists s :: s in spans && Flagged(s) && bit in s.typ && !Covered(spans, s)
  {
    out := NONE;
    for i := 0 to |spans|
      invariant forall bit :: bit in out <==> exists s :: s in spans[..i] && Flagged(s) && bit in s.typ && !Covered(spans, s)
    {
      ghost var before := out;
      var s := spans[i];
      var covered := IsCovered(spans, s);
      if Flagged(s) && !covered {
        out := out + s.typ;
      }
      OneMoreSpan(spans, i, before, out);
    }
    assert spans[..|spans|] == spans;
  }

  lemma OneMoreSpan(spans: seq<Span>, i: nat, before: Type, after: Type)
    requires i < |spans|
    requires forall bit :: bit in before <==> exists s :: s in spans[..i] && Flagged(s) && bit in s.typ && !Covered(spans, s)
    requires after == if Flagged(spans[i]) && !Covered(spans, spans[i]) then before + spans[i].typ else before
    ensures forall bit :: bit in after <==> exists s :: s in spans[..i + 1] && Flagged(s) && bit in s.typ && !Covered(spans, s)
  {
    hide Flagged, Covered;
    assert spans[..i + 1] == spans[..i] + [spans[i]];
    forall bit ensures bit in after <==> exists s :: s in spans[..i + 1] && Flagged(s) && bit in s.typ && !Covered(spans, s) {
      if bit in before {
        var s :| s in spans[..i] && Flagged(s) && bit in s.typ && !Covered(spans, s);
        assert s in spans[..i + 1];
      } else if bit in after {
        assert spans[i] in spans[..i + 1];
      }
    }
  }
}
