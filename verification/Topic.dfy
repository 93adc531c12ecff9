/** Topic matching of exchanges: cutting keys into words and the table that
    compares the words. */
module Topic {

  /** Keys are cut at dots, and at the NUL that operator[] yields behind the end. */
  predicate Separator(c: char) {
    c == '.' || c == '\0'
  }

  // ------------------------------------------------------------- words

  function FirstSeparator(key: string): (n: nat)
    ensures n <= |key|
    ensures forall i :: 0 <= i < n ==> !Separator(key[i])
    ensures n < |key| ==> Separator(key[n])
  {
    if key == "" || Separator(key[0]) then 0 else 1 + FirstSeparator(key[1..])
  }

  predicate IsWord(w: string) {
    w != "" && forall i :: 0 <= i < |w| ==> !Separator(w[i])
  }

  /** The words of a key: its non-empty pieces between separators, in order. */
  function Words(key: string): (ws: seq<string>)
    ensures forall i :: 0 <= i < |ws| ==> IsWord(ws[i])
    decreases |key|
  {
    var n := FirstSeparator(key);
    (if n == 0 then [] else [key[..n]]) + (if n == |key| then [] else Words(key[n + 1..]))
  }

  function Join(ws: seq<string>): string {
    if ws == [] then "" else if |ws| == 1 then ws[0] else ws[0] + "." + Join(ws[1..])
  }

  lemma {:induction false} FirstSeparatorAt(w: string, rest: string)
    requires forall i :: 0 <= i < |w| ==> !Separator(w[i])
    requires rest == "" || Separator(rest[0])
    ensures FirstSeparator(w + rest) == |w|
  {
    if w == "" {
      assert w + rest == rest;
    } else {
      assert (w + rest)[1..] == w[1..] + rest;
      FirstSeparatorAt(w[1..], rest);
    }
  }

  function Piece(w: string): seq<string> {
    if w == "" then [] else [w]
  }

  lemma WordsCut(w: string, c: char, rest: string)
    requires Separator(c) && forall i :: 0 <= i < |w| ==> !Separator(w[i])
    ensures Words(w + [c] + rest) == Piece(w) + Words(rest)
    ensures Words(w) == Piece(w)
  {
    FirstSeparatorAt(w, [c] + rest);
    FirstSeparatorAt(w, "");
    var key := w + [c] + rest;
    assert key == w + ([c] + rest) && w + "" == w;
    assert key[..|w|] == w && key[|w| + 1..] == rest && w[..|w|] == w;
  }

  lemma JoinMore(ws: seq<string>)
    requires |ws| > 1
    ensures Join(ws) == ws[0] + ['.'] + Join(ws[1..])
  {
  }

  /** Cutting undoes joining, for every list of words. */
  lemma {:induction false} WordsOfJoin(ws: seq<string>)
    requires forall i :: 0 <= i < |ws| ==> IsWord(ws[i])
    ensures Words(Join(ws)) == ws
  {
    if |ws| == 1 {
      WordsCut(ws[0], '.', "");
    } else if ws != [] {
      WordsOfJoin(ws[1..]);
      WordsCut(ws[0], '.', Join(ws[1..]));
      JoinMore(ws);
      hide Words, Join;
      assert Piece(ws[0]) == [ws[0]];
      assert ws == [ws[0]] + ws[1..];
    }
  }

  /** One round of the loop below: a piece that ends at a separator or at the
      end of the key. */
  lemma NextPiece(key: string, lo: nat, hi: nat)
    requires lo <= hi <= |key| && (hi < |key| ==> Separator(key[hi]))
    requires forall i :: lo <= i < hi ==> !Separator(key[i])
    ensures Words(key[lo..]) == Piece(key[lo..hi]) + (if hi < |key| then Words(key[hi + 1..]) else [])
  {
    hide Words;
    var sub := key[lo..hi];
    if hi < |key| {
      WordsCut(sub, key[hi], key[hi + 1..]);
      assert key[lo..] == sub + [key[hi]] + key[hi + 1..];
    } else {
      WordsCut(sub, '.', "");
      assert key[lo..] == sub;
    }
  }

  /** The tokenising loop of IsFit. */
  method Tokenise(key: string) returns (words: seq<string>)
    ensures words == Words(key)
  {
    hide Words;
    words := [];
    var lo, hi := 0, 0;
    while hi <= |key|
      invariant 0 <= lo <= hi <= |key| + 1
      invariant hi == |key| + 1 ==> lo == hi
      invariant forall i :: lo <= i < hi && i < |key| ==> !Separator(key[i])
      invariant if lo <= |key| then words + Words(key[lo..]) == Words(key) else words == Words(key)
    {
      var c := if hi < |key| then key[hi] else '\0';
      if c != '.' && c != '\0' {
        hi := hi + 1;
      } else {
        var sub := key[lo..hi];
        NextPiece(key, lo, hi);
        ghost var later := if hi < |key| then Words(key[hi + 1..]) else [];
        assert words + (Piece(sub) + later) == (words + Piece(sub)) + later;
        if sub != "" {
          words := words + [sub];
        }
        hi := hi + 1;
        lo := hi;
      }
    }
  }

  // ------------------------------------------------------------ globs

  const STAR := "*"
  const HASH := "#"

  /** Word globs: `*` stands for one word, `#` for any number of words. */
  predicate Glob(pattern: seq<string>, text: seq<string>)
    decreases |pattern|
  {
    if pattern == [] then text == []
    else if pattern[0] == HASH then exists k :: 0 <= k <= |text| && Glob(pattern[1..], text[k..])
    else text != [] && (pattern[0] == STAR || pattern[0] == text[0]) && Glob(pattern[1..], text[1..])
  }

  /** How a glob treats its last word, in terms of shorter texts. */
  ghost predicate LastWord(front: seq<string>, w: string, text: seq<string>) {
    if w == HASH then Glob(front, text) || (text != [] && Glob(front + [w], text[..|text| - 1]))
    else text != [] && (w == STAR || w == text[|text| - 1]) && Glob(front, text[..|text| - 1])
  }

  lemma SingleWord(w: string, text: seq<string>)
    ensures Glob([w], text) <==> LastWord([], w, text)
  {
    var none: seq<string> := [];
    assert [w][1..] == none;
    if w == HASH {
      assert text[|text|..] == none;
      assert Glob([w], text);
      if text != [] {
        var shorter := text[..|text| - 1];
        assert shorter[|shorter|..] == none;
        assert Glob([w], shorter);
        assert none + [w] == [w];
      }
    } else if text != [] {
      assert text[1..] == [] <==> text[..|text| - 1] == [];
      assert Glob(none, text[1..]) <==> |text| == 1;
      assert Glob(none, text[..|text| - 1]) <==> |text| == 1;
    }
  }

  lemma HashTakes(pattern: seq<string>, text: seq<string>, k: nat)
    requires pattern != [] && pattern[0] == HASH && k <= |text| && Glob(pattern[1..], text[k..])
    ensures Glob(pattern, text)
  {
  }

  lemma HashTook(pattern: seq<string>, text: seq<string>) returns (k: nat)
    requires pattern != [] && pattern[0] == HASH && Glob(pattern, text)
    ensures k <= |text| && Glob(pattern[1..], text[k..])
  {
    k :| 0 <= k <= |text| && Glob(pattern[1..], text[k..]);
  }

  lemma {:induction false} GlobFromTheEnd(front: seq<string>, w: string, text: seq<string>)
    ensures Glob(front + [w], text) <==> LastWord(front, w, text)
    decreases |front|
  {
    if front == [] {
      assert front + [w] == [w];
      SingleWord(w, text);
    } else {
      var p, rest := front[0], front[1..];
      assert (front + [w])[0] == p && (front + [w])[1..] == rest + [w];
      if p == HASH {
        if Glob(front + [w], text) {
          HashKeepsLastWord(front, w, text);
        }
        if LastWord(front, w, text) {
          LastWordUnderHash(front, w, text);
        }
      } else if text != [] {
        GlobFromTheEnd(rest, w, text[1..]);
        if |text| > 1 {
          var shorter := text[..|text| - 1];
          assert shorter[1..] == text[1..][..|text| - 2];
          assert shorter[0] == text[0];
        }
      }
    }
  }

  lemma {:induction false} HashKeepsLastWord(front: seq<string>, w: string, text: seq<string>)
    requires front != [] && front[0] == HASH && Glob(front + [w], text)
    ensures LastWord(front, w, text)
    decreases |front|, 0
  {
    hide Glob;
    var rest, shorter := front[1..], if text == [] then [] else text[..|text| - 1];
    assert (front + [w])[1..] == rest + [w];
    var k := HashTook(front + [w], text);
    GlobFromTheEnd(rest, w, text[k..]);
    if k < |text| {
      assert text[k..][..|text| - k - 1] == shorter[k..];
    }
    if w == HASH {
      if Glob(rest, text[k..]) {
        HashTakes(front, text, k);
      } else {
        GlobFromTheEnd(rest, w, shorter[k..]);
        HashTakes(front + [w], shorter, k);
      }
    } else {
      HashTakes(front, shorter, k);
    }
  }

  lemma {:induction false} LastWordUnderHash(front: seq<string>, w: string, text: seq<string>)
    requires front != [] && front[0] == HASH && LastWord(front, w, text)
    ensures Glob(front + [w], text)
    decreases |front|, 0
  {
    hide Glob;
    var rest, shorter := front[1..], if text == [] then [] else text[..|text| - 1];
    assert (front + [w])[1..] == rest + [w];
    var k: nat;
    if w == HASH && Glob(front, text) {
      k := HashTook(front, text);
    } else if w == HASH {
      k := HashTook(front + [w], shorter);
      assert text[k..][..|text| - k - 1] == shorter[k..];
    } else {
      k := HashTook(front, shorter);
      assert text[k..][..|text| - k - 1] == shorter[k..];
    }
    GlobFromTheEnd(rest, w, text[k..]);
    HashTakes(front + [w], text, k);
  }

  // ------------------------------------------------------- the table

  /** Cell (i, j) of the table: the first j pattern words against the first i
      text words. A table column for a leading `#` is never seeded. */
  ghost predicate Cell(pattern: seq<string>, text: seq<string>, i: nat, j: nat)
    requires i <= |text| && j <= |pattern|
  {
    (j > 0 ==> pattern[0] != HASH) && Glob(pattern[..j], text[..i])
  }

  lemma CellRecurrence(pattern: seq<string>, text: seq<string>, i: nat, j: nat)
    requires 1 <= i <= |text| && 1 <= j <= |pattern|
    ensures Cell(pattern, text, i, j) <==>
      if pattern[j - 1] == HASH then Cell(pattern, text, i - 1, j) || Cell(pattern, text, i, j - 1)
      else (pattern[j - 1] == STAR || text[i - 1] == pattern[j - 1]) && Cell(pattern, text, i - 1, j - 1)
  {
    hide Glob;
    assert pattern[..j] == pattern[..j - 1] + [pattern[j - 1]];
    assert text[..i][..i - 1] == text[..i - 1];
    GlobFromTheEnd(pattern[..j - 1], pattern[j - 1], text[..i]);
    if j == 1 && pattern[0] != HASH {
      assert pattern[..0] == [];
    } else if j == 1 {
      EmptyPattern(text[..i]);
      assert pattern[..0] == [];
    }
  }

  lemma EmptyPattern(text: seq<string>)
    ensures Glob([], text) <==> text == []
  {
  }

  lemma CellEdges(pattern: seq<string>, text: seq<string>)
    ensures Cell(pattern, text, 0, 0)
    ensures forall i :: 1 <= i <= |text| ==> !Cell(pattern, text, i, 0)
    ensures forall j :: 1 <= j <= |pattern| ==> !Cell(pattern, text, 0, j)
  {
    assert pattern[..0] == [] && text[..0] == [];
    forall j | 1 <= j <= |pattern|
      ensures !Cell(pattern, text, 0, j)
    {
      assert pattern[..j][0] == pattern[0];
    }
  }

  /** IsFit: the wildcards are looked for in the routing key, the binding key
      is the text, and a routing key with a leading `#` fits nothing. */
  method IsFit(routingKey: string, bindingKey: string) returns (fit: bool)
    ensures fit <==> Fits(routingKey, bindingKey)
  {
    hide Cell, Words;
    var routing := Tokenise(routingKey);
    var binding := Tokenise(bindingKey);
    var n, m := |binding|, |routing|;
    var dp := new bool[n + 1, m + 1]((_, _) => false);
    dp[0, 0] := true;
    CellEdges(routing, binding);
    for i := 1 to n + 1
      invariant forall a, b :: 0 <= a < i && 0 <= b <= m ==> dp[a, b] == Cell(routing, binding, a, b)
      invariant forall a, b :: i <= a <= n && 0 <= b <= m ==> !dp[a, b]
    {
      for j := 1 to m + 1
        invariant forall a, b :: 0 <= a < i && 0 <= b <= m ==> dp[a, b] == Cell(routing, binding, a, b)
        invariant forall b :: 0 <= b < j ==> dp[i, b] == Cell(routing, binding, i, b)
        invariant forall b :: j <= b <= m ==> !dp[i, b]
        invariant forall a, b :: i < a <= n && 0 <= b <= m ==> !dp[a, b]
      {
        CellRecurrence(routing, binding, i, j);
        if routing[j - 1] == STAR || binding[i - 1] == routing[j - 1] {
          dp[i, j] := dp[i - 1, j - 1];
        }
        if routing[j - 1] == HASH {
          dp[i, j] := dp[i - 1, j] || dp[i, j - 1];
        }
      }
    }
    fit := dp[n, m];
    LastCell(routing, binding);
  }

  lemma LastCell(pattern: seq<string>, text: seq<string>)
    ensures Cell(pattern, text, |text|, |pattern|) <==>
      (pattern != [] ==> pattern[0] != HASH) && Glob(pattern, text)
  {
    assert pattern[..|pattern|] == pattern && text[..|text|] == text;
  }

  predicate Fits(routingKey: string, bindingKey: string) {
    var pattern := Words(routingKey);
    (pattern != [] ==> pattern[0] != HASH) && Glob(pattern, Words(bindingKey))
  }

  lemma {:induction false} GlobOfItself(pattern: seq<string>)
    ensures Glob(pattern, pattern)
  {
    if pattern != [] {
      GlobOfItself(pattern[1..]);
    }
  }

  /** The code decides the glob of the routing key for every binding key
      exactly when the routing key does not start with `#`; when it does, it
      fits no binding key at all. */
  lemma FitsIsGlobUnlessLeadingHash(routingKey: string)
    ensures var leadingHash := Words(routingKey) != [] && Words(routingKey)[0] == HASH;
      && ((forall b :: Fits(routingKey, b) <==> Glob(Words(routingKey), Words(b))) <==> !leadingHash)
      && (leadingHash ==> forall b :: !Fits(routingKey, b))
  {
    hide Words, Glob;
    GlobOfItself(Words(routingKey));
    assert Glob(Words(routingKey), Words(routingKey));
    if Words(routingKey) != [] && Words(routingKey)[0] == HASH {
      assert !Fits(routingKey, routingKey);
    }
  }

  /** A key without wildcards fits the binding keys with the same words. */
  lemma {:induction false} PlainGlob(pattern: seq<string>, text: seq<string>)
    requires STAR !in pattern && HASH !in pattern
    ensures Glob(pattern, text) <==> pattern == text
  {
    if pattern != [] && text != [] {
      PlainGlob(pattern[1..], text[1..]);
      assert pattern == [pattern[0]] + pattern[1..] && text == [text[0]] + text[1..];
    }
  }

  /** Wildcards in a binding key are ordinary words: a routing key without
      wildcards fits a binding key only when the words are the same. */
  lemma WildcardsOfBindingsAreIgnored(routingKey: string, bindingKey: string)
    requires STAR !in Words(routingKey) && HASH !in Words(routingKey)
    ensures Fits(routingKey, bindingKey) <==> Words(routingKey) == Words(bindingKey)
  {
    hide Words;
    PlainGlob(Words(routingKey), Words(bindingKey));
    if Words(routingKey) != [] {
      assert Words(routingKey)[0] in Words(routingKey);
    }
  }

  /** Exactly the binding keys without wildcards are matched as if the roles
      were the documented ones, with the wildcards in the binding key. */
  lemma BindingPatternsFitWhenPlain(bindingKey: string)
    ensures (forall r | Plain(r) :: Fits(r, bindingKey) <==> Glob(Words(bindingKey), Words(r))) <==> Plain(bindingKey)
  {
    hide Words, Glob;
    var b := Words(bindingKey);
    if Plain(bindingKey) {
      forall r | Plain(r)
        ensures Fits(r, bindingKey) <==> Glob(b, Words(r))
      {
        WildcardsOfBindingsAreIgnored(r, bindingKey);
        PlainGlob(b, Words(r));
      }
    } else {
      var r := PlainMatch(bindingKey);
      WildcardsOfBindingsAreIgnored(r, bindingKey);
    }
  }

  predicate Plain(key: string) {
    STAR !in Words(key) && HASH !in Words(key)
  }

  /** The pattern's words with every wildcard replaced by an ordinary word. */
  function WithoutWildcards(pattern: seq<string>): (ws: seq<string>)
    ensures |ws| == |pattern| && STAR !in ws && HASH !in ws
    ensures (forall i :: 0 <= i < |pattern| ==> IsWord(pattern[i])) ==> forall i :: 0 <= i < |ws| ==> IsWord(ws[i])
  {
    if pattern == [] then []
    else [if pattern[0] == STAR || pattern[0] == HASH then "x" else pattern[0]] + WithoutWildcards(pattern[1..])
  }

  lemma {:induction false} GlobOfReplaced(pattern: seq<string>)
    ensures Glob(pattern, WithoutWildcards(pattern))
  {
    if pattern != [] {
      GlobOfReplaced(pattern[1..]);
      assert WithoutWildcards(pattern)[1..] == WithoutWildcards(pattern[1..]);
    }
  }

  /** A plain routing key that the wildcards of a binding key would match. */
  lemma PlainMatch(bindingKey: string) returns (r: string)
    ensures Plain(r) && Glob(Words(bindingKey), Words(r))
    ensures !Plain(bindingKey) ==> Words(r) != Words(bindingKey)
  {
    hide Glob;
    var b := Words(bindingKey);
    var ws := WithoutWildcards(b);
    r := Join(ws);
    WordsOfJoin(ws);
    GlobOfReplaced(b);
  }
}
