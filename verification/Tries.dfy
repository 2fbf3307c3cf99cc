/** Word categories and the dictionary trie (type.go, trie.go). */
module Tries {

  /** A set of severity and category bits. */
  type Type = set<nat>

  const NONE: Type := {}

  /** The bit that marks a word or phrase as explicitly benign. */
  const SAFE: nat := 18

  /** Every category at every severity. */
  const ANY: Type := {0, 1, 2, 3, 4, 5, 6, 7, 8, 9, 10, 11, 12, 13, 14, 15, 16, 17}

  /** What is rejected by default: profane, offensive or sexual at any severity, and severe meanness. */
  const INAPPROPRIATE: Type := {0, 1, 2, 3, 4, 5, 6, 7, 8, 11}

  datatype Node = Node(children: map<char, nat>, word: bool, typ: Type, depth: nat)

  /** Each node stands for the string that leads to it; all prefixes are there, and siblings go by their characters. */
  ghost predicate ValidTrie(nodes: seq<Node>, paths: seq<string>) {
    Shaped(nodes, paths) && Linked(nodes, paths) && Rooted(nodes, paths) && Distinct(paths)
  }

  ghost predicate Shaped(nodes: seq<Node>, paths: seq<string>) {
    && |nodes| == |paths| >= 1 && paths[0] == ""
    && forall n :: 0 <= n < |nodes| ==> nodes[n].depth == |paths[n]| && (!nodes[n].word ==> nodes[n].typ == NONE)
  }

  ghost predicate Linked(nodes: seq<Node>, paths: seq<string>)
    requires |nodes| == |paths|
  {
    forall n, c :: 0 <= n < |nodes| && c in nodes[n].children ==>
      nodes[n].children[c] < |nodes| && paths[nodes[n].children[c]] == paths[n] + [c]
  }

  ghost predicate Rooted(nodes: seq<Node>, paths: seq<string>)
    requires |nodes| == |paths|
  {
    forall n :: 0 < n < |nodes| ==> HasParent(nodes, paths, n)
  }

  ghost predicate Distinct(paths: seq<string>) {
    forall m, n :: 0 <= m < n < |paths| ==> paths[m] != paths[n]
  }

  ghost predicate HasParent(nodes: seq<Node>, paths: seq<string>, n: nat)
    requires n < |nodes| == |paths|
  {
    && paths[n] != ""
    && var last := |paths[n]| - 1;
    exists m :: 0 <= m < |nodes| && paths[m] == paths[n][..last] && paths[n][last] in nodes[m].children
                && nodes[m].children[paths[n][last]] == n
  }

  /** The words of the trie are those of the dictionary, with the same types. */
  ghost predicate Lists(nodes: seq<Node>, paths: seq<string>, dict: map<string, Type>)
    requires |nodes| == |paths|
  {
    && (forall n :: 0 <= n < |nodes| ==> (nodes[n].word <==> paths[n] in dict))
    && (forall n :: 0 <= n < |nodes| && nodes[n].word ==> nodes[n].typ == dict[paths[n]])
    && forall w :: w in dict ==> w in paths
  }

  function Branched(nodes: seq<Node>, cur: nat, c: char): (r: seq<Node>)
    requires cur < |nodes|
    ensures |r| == |nodes| + 1 && r[|nodes|] == Node(map[], false, NONE, nodes[cur].depth + 1)
    ensures forall k :: 0 <= k < |nodes| ==>
              r[k] == if k == cur then nodes[cur].(children := nodes[cur].children[c := |nodes|]) else nodes[k]
  {
    nodes[cur := nodes[cur].(children := nodes[cur].children[c := |nodes|])] + [Node(map[], false, NONE, nodes[cur].depth + 1)]
  }

  /** A node one character further on. */
  lemma Grown(nodes: seq<Node>, paths: seq<string>, dict: map<string, Type>, cur: nat, c: char)
    requires ValidTrie(nodes, paths) && Lists(nodes, paths, dict) && cur < |nodes| && c !in nodes[cur].children
    ensures var path := paths[cur] + [c]; var nodes' := Branched(nodes, cur, c);
            ValidTrie(nodes', paths + [path]) && Lists(nodes', paths + [path], dict)
  {
    var n, path, nodes' := |nodes|, paths[cur] + [c], Branched(nodes, cur, c);
    var paths' := paths + [path];
    hide Branched;
    forall k | 0 <= k < n ensures paths[k] != path {
      if paths[k] == path {
        NewPath(nodes, paths, cur, c, k);
      }
    }
    assert Shaped(nodes', paths') && Linked(nodes', paths') && Distinct(paths') by { hide Rooted, Lists; }
    StillRooted(nodes, paths, cur, c);
    StillListed(nodes, paths, dict, cur, c);
  }

  lemma StillRooted(nodes: seq<Node>, paths: seq<string>, cur: nat, c: char)
    requires |nodes| == |paths| && Rooted(nodes, paths) && cur < |nodes| && c !in nodes[cur].children
    ensures Rooted(Branched(nodes, cur, c), paths + [paths[cur] + [c]])
  {
    var n, path, nodes' := |nodes|, paths[cur] + [c], Branched(nodes, cur, c);
    var paths' := paths + [path];
    hide Branched;
    forall k | 0 < k < |nodes'| ensures HasParent(nodes', paths', k) {
      if k < n {
        assert HasParent(nodes, paths, k);
        var last := |paths[k]| - 1;
        var m :| 0 <= m < |nodes| && paths[m] == paths[k][..last] && paths[k][last] in nodes[m].children
                 && nodes[m].children[paths[k][last]] == k;
        assert paths'[m] == paths[m] && paths'[k] == paths[k];
        assert paths'[k][last] in nodes'[m].children && nodes'[m].children[paths'[k][last]] == k;
      } else {
        assert path[..|path| - 1] == paths[cur] && paths'[cur] == paths[cur] && paths'[k] == path;
        assert nodes'[cur].children[path[|path| - 1]] == k;
      }
    }
  }

  lemma StillListed(nodes: seq<Node>, paths: seq<string>, dict: map<string, Type>, cur: nat, c: char)
    requires |nodes| == |paths| && Lists(nodes, paths, dict) && cur < |nodes|
    requires forall k :: 0 <= k < |paths| ==> paths[k] != paths[cur] + [c]
    ensures Lists(Branched(nodes, cur, c), paths + [paths[cur] + [c]], dict)
  {
    hide Branched;
    var path := paths[cur] + [c];
    assert path !in paths;
    assert path !in dict;
    forall w | w in dict ensures w in paths + [path] {
      assert w in paths;
    }
  }

  /** A node's path leads to it through its parent's children. */
  lemma NewPath(nodes: seq<Node>, paths: seq<string>, cur: nat, c: char, k: nat)
    requires ValidTrie(nodes, paths) && cur < |nodes| && k < |nodes| && paths[k] == paths[cur] + [c]
    ensures c in nodes[cur].children && nodes[cur].children[c] == k
  {
    assert HasParent(nodes, paths, k);
    var last := |paths[k]| - 1;
    var m :| 0 <= m < |nodes| && paths[m] == paths[k][..last] && paths[k][last] in nodes[m].children
             && nodes[m].children[paths[k][last]] == k;
    assert paths[k][..last] == paths[cur];
    assert m == cur;
  }

  /** Every prefix of a path is a path, and the next character leads on. */
  lemma PrefixNode(nodes: seq<Node>, paths: seq<string>, n: nat) returns (m: nat)
    requires ValidTrie(nodes, paths) && n < |nodes| && paths[n] != ""
    ensures m < |nodes| && paths[m] == paths[n][..|paths[n]| - 1]
    ensures paths[n][|paths[n]| - 1] in nodes[m].children && nodes[m].children[paths[n][|paths[n]| - 1]] == n
  {
    assert HasParent(nodes, paths, n);
    m :| 0 <= m < |nodes| && paths[m] == paths[n][..|paths[n]| - 1] && paths[n][|paths[n]| - 1] in nodes[m].children
         && nodes[m].children[paths[n][|paths[n]| - 1]] == n;
  }

  /** A node becomes a word, or a word gains types. */
  lemma Marked(nodes: seq<Node>, paths: seq<string>, dict: map<string, Type>, cur: nat, typ: Type)
    requires ValidTrie(nodes, paths) && Lists(nodes, paths, dict) && cur < |nodes|
    ensures var nodes' := nodes[cur := nodes[cur].(word := true, typ := nodes[cur].typ + typ)];
            var before := if paths[cur] in dict then dict[paths[cur]] else NONE;
            ValidTrie(nodes', paths) && Lists(nodes', paths, dict[paths[cur] := before + typ])
  {
    var nodes' := nodes[cur := nodes[cur].(word := true, typ := nodes[cur].typ + typ)];
    assert Shaped(nodes', paths) && Linked(nodes', paths) && Distinct(paths) by { hide Rooted, Lists; }
    assert Rooted(nodes', paths) by {
      forall k | 0 < k < |nodes'| ensures HasParent(nodes', paths, k) {
        var m := PrefixNode(nodes, paths, k);
        assert nodes'[m].children == nodes[m].children;
      }
    }
    MarkedListed(nodes, paths, dict, cur, typ);
  }

  lemma MarkedListed(nodes: seq<Node>, paths: seq<string>, dict: map<string, Type>, cur: nat, typ: Type)
    requires Shaped(nodes, paths) && Distinct(paths) && Lists(nodes, paths, dict) && cur < |nodes|
    ensures var nodes' := nodes[cur := nodes[cur].(word := true, typ := nodes[cur].typ + typ)];
            var before := if paths[cur] in dict then dict[paths[cur]] else NONE;
            Lists(nodes', paths, dict[paths[cur] := before + typ])
  {
    assert paths[cur] in paths;
  }

  /** The dictionary trie, its nodes numbered in the order they were made. */
  class Trie {
    var nodes: seq<Node>
    ghost var paths: seq<string>
    ghost var dict: map<string, Type>

    ghost predicate Valid()
      reads this
    {
      ValidTrie(nodes, paths) && Lists(nodes, paths, dict)
    }

    constructor ()
      ensures Valid() && dict == map[]
    {
      nodes, paths, dict := [Node(map[], false, NONE, 0)], [""], map[];
    }

    /** Adding a word makes it a word of the dictionary; adding it again adds to its types. No other word changes. */
    method Add(word: string, typ: Type)
      requires Valid()
      modifies this
      ensures Valid()
      ensures dict == old(dict)[word := (if word in old(dict) then old(dict)[word] else NONE) + typ]
    {
      hide ValidTrie, Lists;
      var cur: nat := 0;
      Root(nodes, paths);
      for j := 0 to |word|
        invariant Valid() && dict == old(dict) && cur < |nodes| == |paths| && paths[cur] == word[..j]
      {
        var r := word[j];
        Child(nodes, paths, cur, r);
        assert word[..j + 1] == word[..j] + [r];
        if r in nodes[cur].children {
          cur := nodes[cur].children[r];
        } else {
          Grown(nodes, paths, dict, cur, r);
          paths := paths + [paths[cur] + [r]];
          nodes := Branched(nodes, cur, r);
          cur := |nodes| - 1;
        }
      }
      assert word[..|word|] == word;
      Marked(nodes, paths, dict, cur, typ);
      dict := dict[word := (if word in dict then dict[word] else NONE) + typ];
      nodes := nodes[cur := nodes[cur].(word := true, typ := nodes[cur].typ + typ)];
    }
  }

  lemma Root(nodes: seq<Node>, paths: seq<string>)
    requires ValidTrie(nodes, paths)
    ensures |nodes| == |paths| >= 1 && paths[0] == ""
  {
  }

  lemma Child(nodes: seq<Node>, paths: seq<string>, n: nat, c: char)
    requires ValidTrie(nodes, paths) && n < |nodes|
    ensures |nodes| == |paths|
    ensures c in nodes[n].children ==> nodes[n].children[c] < |nodes| && paths[nodes[n].children[c]] == paths[n] + [c]
  {
  }
}
