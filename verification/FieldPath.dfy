/** From environment variable names to configuration fields, internal/config/envsubst.go. */
module FieldPath {
  import opened Results

  /** A tree of configuration fields: every node carries its own key as written in the file. */
  datatype Node = Node(key: string, children: map<string, Node>)

  /** The shape of a configuration type: what reflection shows of it. */
  datatype FieldType = Struct(fields: seq<Field>) | Pointer(elem: FieldType) | Other
  datatype Field = Field(tag: string, ftype: FieldType)

  // Text: `strings.ToLower`, `strings.ReplaceAll`, `strings.Split` and `strings.Join`, on ASCII letters.

  function LowerChar(c: char): char { if 'A' <= c <= 'Z' then c - 'A' + 'a' else c }

  function Lower(s: string): (r: string)
    ensures |r| == |s|
  {
    seq(|s|, i requires 0 <= i < |s| => LowerChar(s[i]))
  }

  function NormalizeKey(key: string): (r: string)
    ensures |r| == |key|
  {
    Lower(seq(|key|, i requires 0 <= i < |key| => if key[i] == '-' then '_' else key[i]))
  }

  /** Letters that a key may have where its normal form has `d`. */
  predicate NormalForm(c: char, d: char) {
    if c == '-' then d == '_' else if 'A' <= c <= 'Z' then d as int == c as int + 32 else d == c
  }

  /** The normal form, letter by letter; it is its own normal form. */
  lemma NormalizeMeans(key: string)
    ensures forall i :: 0 <= i < |key| ==> NormalForm(key[i], NormalizeKey(key)[i])
    ensures NormalizeKey(NormalizeKey(key)) == NormalizeKey(key)
  {
    assert 'a' as int == 'A' as int + 32 && 'Z' as int < 'a' as int;
  }

  /** One more character in front: a separator opens a new token, anything else joins the first one. */
  function Prepend(c: char, tokens: seq<string>): (r: seq<string>)
    requires tokens != []
    ensures r != []
  {
    if c == '_' then [""] + tokens else [[c] + tokens[0]] + tokens[1..]
  }

  function Split(s: string): (r: seq<string>)
    ensures r != []
  {
    if s == "" then [""] else Prepend(s[0], Split(s[1..]))
  }

  function Join(tokens: seq<string>): string {
    if tokens == [] then ""
    else if |tokens| == 1 then tokens[0]
    else tokens[0] + "_" + Join(tokens[1..])
  }

  function Normalized(path: seq<string>): (r: seq<string>)
    ensures |r| == |path|
  {
    seq(|path|, i requires 0 <= i < |path| => NormalizeKey(path[i]))
  }

  lemma JoinPrepend(c: char, tokens: seq<string>)
    requires tokens != []
    ensures Join(Prepend(c, tokens)) == [c] + Join(tokens)
  {
    var r := Prepend(c, tokens);
    if c == '_' {
      assert r[1..] == tokens;
    } else if |tokens| > 1 {
      assert r[1..] == tokens[1..];
    }
  }

  lemma {:induction false} JoinSplit(s: string)
    ensures Join(Split(s)) == s
  {
    if s != "" {
      JoinSplit(s[1..]);
      JoinPrepend(s[0], Split(s[1..]));
    }
  }

  lemma {:induction false} JoinConcat(a: seq<string>, b: seq<string>)
    requires a != [] && b != []
    ensures Join(a + b) == Join(a) + "_" + Join(b)
  {
    if |a| == 1 {
      assert (a + b)[1..] == b;
    } else {
      JoinConcat(a[1..], b);
      assert (a + b)[1..] == a[1..] + b;
      assert a[0] + "_" + (Join(a[1..]) + "_" + Join(b)) == (a[0] + "_" + Join(a[1..])) + "_" + Join(b);
    }
  }

  lemma PrependConcat(c: char, a: seq<string>, b: seq<string>)
    requires a != []
    ensures Prepend(c, a + b) == Prepend(c, a) + b
  {
    assert (a + b)[1..] == a[1..] + b;
  }

  lemma {:induction false} SplitConcat(a: string, b: string)
    ensures Split(a + "_" + b) == Split(a) + Split(b)
  {
    var s := a + "_" + b;
    if a == "" {
      assert s[1..] == b;
    } else {
      SplitConcat(a[1..], b);
      assert s[1..] == a[1..] + "_" + b;
      PrependConcat(a[0], Split(a[1..]), Split(b));
    }
  }

  // The tree.

  /** The part of a tag before its first comma, if it names a field. */
  function TagName(tag: string): string {
    if tag == "" || tag[0] == ',' then "" else [tag[0]] + TagName(tag[1..])
  }

  /** It is what stands before the first comma, or the whole tag. */
  lemma {:induction false} TagNameMeans(tag: string)
    ensures TagName(tag) <= tag && ',' !in TagName(tag)
    ensures |TagName(tag)| < |tag| ==> tag[|TagName(tag)|] == ','
  {
    if tag != "" && tag[0] != ',' { TagNameMeans(tag[1..]); }
  }

  predicate Usable(f: Field) { f.tag != "" && f.tag != "-" && TagName(f.tag) != "" && TagName(f.tag) != "-" }

  /** The first of the two tests is contained in the second. */
  lemma UsableMeans(f: Field)
    ensures Usable(f) <==> TagName(f.tag) != "" && TagName(f.tag) != "-"
  {
    TagNameMeans(f.tag);
    if f.tag == "-" { assert TagName("-") == ['-'] + TagName(""); }
  }

  /** The name under which a usable field goes into the tree. */
  function NodeName(f: Field): string { NormalizeKey(TagName(f.tag)) }

  /** The last usable field whose normalised name is `name`, or -1. */
  function LastField(fields: seq<Field>, name: string): (i: int)
    ensures -1 <= i < |fields|
    ensures i >= 0 ==> Usable(fields[i]) && NodeName(fields[i]) == name
  {
    if fields == [] then -1
    else if Usable(fields[|fields| - 1]) && NodeName(fields[|fields| - 1]) == name then |fields| - 1
    else LastField(fields[..|fields| - 1], name)
  }

  /** The children of the node are the usable fields of the type, each under its normalised name. */
  ghost predicate Describes(node: Node, t: FieldType)
    decreases t
  {
    match t
    case Pointer(elem) => Describes(node, elem)
    case Other => node.children == map[]
    case Struct(fields) =>
      && (forall name :: name in node.children <==> LastField(fields, name) >= 0)
      && (forall name | name in node.children ::
            && node.children[name].key == TagName(fields[LastField(fields, name)].tag)
            && Describes(node.children[name], fields[LastField(fields, name)].ftype))
  }

  /** Every child sits under the normalised form of its own key. */
  predicate WellKeyed(node: Node) {
    forall name | name in node.children ::
      NormalizeKey(node.children[name].key) == name && WellKeyed(node.children[name])
  }

  lemma {:induction false} DescribedIsWellKeyed(node: Node, t: FieldType)
    requires Describes(node, t)
    ensures WellKeyed(node)
    decreases t
  {
    match t
    case Pointer(elem) => DescribedIsWellKeyed(node, elem);
    case Other =>
    case Struct(fields) =>
      forall name | name in node.children
        ensures NormalizeKey(node.children[name].key) == name && WellKeyed(node.children[name])
      {
        DescribedIsWellKeyed(node.children[name], fields[LastField(fields, name)].ftype);
      }
  }

  lemma LastFieldSnoc(fields: seq<Field>, i: nat, name: string)
    requires i < |fields|
    ensures LastField(fields[..i + 1], name) == if Usable(fields[i]) && NodeName(fields[i]) == name then i
                                                else LastField(fields[..i], name)
  {
    assert fields[..i + 1][..i] == fields[..i];
  }

  method BuildFieldNode(ftype: FieldType) returns (node: Node)
    ensures Describes(node, ftype) && node.key == ""
    decreases ftype
  {
    var t := ftype;
    while t.Pointer?
      invariant t == ftype || t < ftype
      invariant forall n :: Describes(n, t) ==> Describes(n, ftype)
      decreases t
    {
      t := t.elem;
    }
    node := Node("", map[]);
    if !t.Struct? {
      return;
    }
    var i := 0;
    while i < |t.fields|
      invariant 0 <= i <= |t.fields| && node.key == ""
      invariant Describes(node, Struct(t.fields[..i]))
    {
      node := AddField(node, t.fields, i);
      i := i + 1;
    }
    assert t.fields[..i] == t.fields;
  }

  /** One turn of the loop over the fields: a field without a usable tag is skipped. */
  method AddField(node: Node, fields: seq<Field>, i: nat) returns (after: Node)
    requires i < |fields| && Describes(node, Struct(fields[..i]))
    ensures Describes(after, Struct(fields[..i + 1])) && after.key == node.key
    decreases fields, 0
  {
    var field := fields[i];
    after := node;
    var name := TagName(field.tag);
    if field.tag != "" && field.tag != "-" && name != "" && name != "-" {
      var child := BuildFieldNode(field.ftype);
      DescribesIgnoresKey(child.(key := name), child, field.ftype);
      child := child.(key := name);
      after := node.(children := node.children[NormalizeKey(name) := child]);
    }
    DescribesOneMore(node, after, fields, i);
  }

  lemma {:induction false} DescribesIgnoresKey(a: Node, b: Node, t: FieldType)
    requires a.children == b.children && Describes(b, t)
    ensures Describes(a, t)
    decreases t
  {
    if t.Pointer? { DescribesIgnoresKey(a, b, t.elem); }
  }

  /** Adding one field to the tree keeps it describing the fields seen so far. */
  lemma DescribesOneMore(before: Node, after: Node, fields: seq<Field>, i: nat)
    requires i < |fields| && Describes(before, Struct(fields[..i]))
    requires !Usable(fields[i]) ==> after == before
    requires Usable(fields[i]) ==> NodeName(fields[i]) in after.children
    requires Usable(fields[i]) ==>
      after.children == before.children[NodeName(fields[i]) := after.children[NodeName(fields[i])]]
    requires Usable(fields[i]) ==> after.children[NodeName(fields[i])].key == TagName(fields[i].tag)
    requires Usable(fields[i]) ==> Describes(after.children[NodeName(fields[i])], fields[i].ftype)
    ensures Describes(after, Struct(fields[..i + 1]))
  {
    forall name ensures name in after.children <==> LastField(fields[..i + 1], name) >= 0 {
      LastFieldSnoc(fields, i, name);
    }
    forall name | name in after.children
      ensures after.children[name].key == TagName(fields[..i + 1][LastField(fields[..i + 1], name)].tag)
      ensures Describes(after.children[name], fields[..i + 1][LastField(fields[..i + 1], name)].ftype)
    {
      LastFieldSnoc(fields, i, name);
    }
  }

  // The matcher.

  /** A cut gives the sizes of consecutive groups of tokens; each group, joined, must name a child of the node
    * reached so far, and the groups must use up all tokens. */
  predicate Walks(node: Node, tokens: seq<string>, cut: seq<nat>) {
    if cut == [] then tokens == []
    else
      && 1 <= cut[0] <= |tokens|
      && Join(tokens[..cut[0]]) in node.children
      && Walks(node.children[Join(tokens[..cut[0]])], tokens[cut[0]..], cut[1..])
  }

  /** The keys met on the way. */
  function PathOf(node: Node, tokens: seq<string>, cut: seq<nat>): (path: seq<string>)
    requires Walks(node, tokens, cut)
    ensures |path| == |cut|
  {
    if cut == [] then []
    else
      var child := node.children[Join(tokens[..cut[0]])];
      [child.key] + PathOf(child, tokens[cut[0]..], cut[1..])
  }

  ghost predicate Matches(node: Node, tokens: seq<string>) {
    exists cut: seq<nat> :: Walks(node, tokens, cut)
  }

  /** `a` takes at least as long a group as `b` at the first place where they differ. */
  predicate LongestFirst(a: seq<nat>, b: seq<nat>) {
    if a == [] || b == [] then b == []
    else a[0] > b[0] || (a[0] == b[0] && LongestFirst(a[1..], b[1..]))
  }

  predicate LongerAt(a: seq<nat>, b: seq<nat>, k: nat) {
    k < |a| && k < |b| && a[..k] == b[..k] && a[k] > b[k]
  }

  /** One goes on where the other ends, or it takes a longer group where they first differ. */
  lemma {:induction false} LongestFirstMeans(a: seq<nat>, b: seq<nat>)
    ensures LongestFirst(a, b) <==> b <= a || exists k: nat :: LongerAt(a, b, k)
    decreases |a|
  {
    if a != [] && b != [] {
      var c, d := a[1..], b[1..];
      LongestFirstMeans(c, d);
      assert a == [a[0]] + c && b == [b[0]] + d;
      if a[0] > b[0] { assert LongerAt(a, b, 0); }
      forall k: nat | a[0] == b[0] && LongerAt(c, d, k) ensures LongerAt(a, b, k + 1) {
        assert a[..k + 1] == [a[0]] + c[..k] && b[..k + 1] == [b[0]] + d[..k];
      }
      forall k: nat | a[0] == b[0] && LongerAt(a, b, k) ensures k > 0 && LongerAt(c, d, k - 1) {
        assert c[..k - 1] == a[..k][1..] && d[..k - 1] == b[..k][1..];
      }
      if k: nat :| LongerAt(a, b, k) && k > 0 { assert a[..k][0] == b[..k][0]; }
    }
  }

  /** There is at most one longest-first cut. */
  lemma {:induction false} LongestFirstUnique(a: seq<nat>, b: seq<nat>)
    requires LongestFirst(a, b) && LongestFirst(b, a)
    ensures a == b
    decreases |a|
  {
    if a != [] {
      LongestFirstUnique(a[1..], b[1..]);
      assert a == [a[0]] + a[1..] && b == [b[0]] + b[1..];
    }
  }

  /** No workable cut takes a longer group earlier. */
  ghost predicate Longest(node: Node, tokens: seq<string>, cut: seq<nat>) {
    Walks(node, tokens, cut) && forall c: seq<nat> | Walks(node, tokens, c) :: LongestFirst(cut, c)
  }

  /** The longest-first cut and the path along it. */
  ghost predicate LeadsTo(node: Node, tokens: seq<string>, cut: seq<nat>, path: seq<string>) {
    Longest(node, tokens, cut) && path == PathOf(node, tokens, cut)
  }

  /** No workable cut starts with a group longer than `n`. */
  ghost predicate NoLonger(node: Node, tokens: seq<string>, n: int) {
    forall c: seq<nat> | Walks(node, tokens, c) && c != [] :: c[0] <= n
  }

  /** Finds a cut whenever there is one, and then the longest-first one. */
  method MatchFieldPath(node: Node, tokens: seq<string>) returns (path: Option<seq<string>>, ghost cut: seq<nat>)
    ensures path.Some? <==> Matches(node, tokens)
    ensures path.Some? ==> Longest(node, tokens, cut) && path.value == PathOf(node, tokens, cut)
    decreases |tokens|
  {
    cut := [];
    if |tokens| == 0 {
      OnlyEmptyCut(node, tokens);
      return Some([]), [];
    }
    var i := |tokens|;
    while i >= 1
      invariant 0 <= i <= |tokens|
      invariant NoLonger(node, tokens, i)
    {
      var candidate := Join(tokens[..i]);
      if candidate in node.children {
        var child := node.children[candidate];
        var rest, tail := MatchFieldPath(child, tokens[i..]);
        if rest.Some? {
          LongestFound(node, tokens, i, tail);
          cut := [i] + tail;
          return Some([child.key] + rest.value), cut;
        }
      }
      Shorter(node, tokens, i);
      i := i - 1;
    }
    NoneShort(node, tokens);
    path := None;
  }

  lemma OnlyEmptyCut(node: Node, tokens: seq<string>)
    requires tokens == []
    ensures Longest(node, tokens, [])
  {
    assert Walks(node, tokens, []);
  }

  lemma NoneShort(node: Node, tokens: seq<string>)
    requires tokens != [] && NoLonger(node, tokens, 0)
    ensures !Matches(node, tokens)
  {}

  lemma FirstGroup(node: Node, tokens: seq<string>, cut: seq<nat>)
    requires Walks(node, tokens, cut) && cut != []
    ensures Matches(node.children[Join(tokens[..cut[0]])], tokens[cut[0]..])
  {
    assert Walks(node.children[Join(tokens[..cut[0]])], tokens[cut[0]..], cut[1..]);
  }

  lemma Shorter(node: Node, tokens: seq<string>, i: int)
    requires 1 <= i <= |tokens| && NoLonger(node, tokens, i)
    requires Join(tokens[..i]) in node.children ==> !Matches(node.children[Join(tokens[..i])], tokens[i..])
    ensures NoLonger(node, tokens, i - 1)
  {
    forall c: seq<nat> | Walks(node, tokens, c) && c != [] ensures c[0] <= i - 1 {
      FirstGroup(node, tokens, c);
    }
  }

  lemma LongestFound(node: Node, tokens: seq<string>, i: nat, tail: seq<nat>)
    requires 1 <= i <= |tokens| && NoLonger(node, tokens, i) && Join(tokens[..i]) in node.children
    requires Longest(node.children[Join(tokens[..i])], tokens[i..], tail)
    ensures Longest(node, tokens, [i] + tail)
    ensures var child := node.children[Join(tokens[..i])];
            PathOf(node, tokens, [i] + tail) == [child.key] + PathOf(child, tokens[i..], tail)
  {
    var cut := [i] + tail;
    assert cut[1..] == tail;
    forall c: seq<nat> | Walks(node, tokens, c) ensures LongestFirst(cut, c) {
      if c[0] == i { assert Walks(node.children[Join(tokens[..i])], tokens[i..], c[1..]); }
    }
  }

  /** Nothing of the variable's name is lost: the path spells the tokens again. */
  lemma {:induction false} PathSpellsTokens(node: Node, tokens: seq<string>, cut: seq<nat>)
    requires WellKeyed(node) && Walks(node, tokens, cut)
    ensures Join(Normalized(PathOf(node, tokens, cut))) == Join(tokens)
  {
    if cut != [] {
      var group := tokens[..cut[0]];
      var child := node.children[Join(group)];
      PathSpellsTokens(child, tokens[cut[0]..], cut[1..]);
      var rest := PathOf(child, tokens[cut[0]..], cut[1..]);
      var path := PathOf(node, tokens, cut);
      assert Normalized(path)[1..] == Normalized(rest);
      assert Normalized(path)[0] == Join(group);
      assert tokens == group + tokens[cut[0]..];
      if tokens[cut[0]..] == [] {
        assert tokens == group;
        assert cut[1..] == [];
      } else {
        JoinConcat(group, tokens[cut[0]..]);
      }
    }
  }

  /** A path of keys, as written in the file, from the node down. */
  predicate IsPath(node: Node, path: seq<string>) {
    path == [] || (NormalizeKey(path[0]) in node.children && node.children[NormalizeKey(path[0])].key == path[0] &&
                   IsPath(node.children[NormalizeKey(path[0])], path[1..]))
  }

  /** The cut that a path suggests: as many tokens for each key as the key has parts. */
  function CutOf(path: seq<string>): seq<nat> {
    if path == [] then [] else [|Split(NormalizeKey(path[0]))|] + CutOf(path[1..])
  }

  /** Every field can be named: the variable spelt from a path has a cut that walks exactly that path. */
  lemma {:induction false} EveryPathHasACut(node: Node, path: seq<string>)
    requires path != [] && IsPath(node, path)
    ensures Walks(node, Split(Join(Normalized(path))), CutOf(path))
    ensures PathOf(node, Split(Join(Normalized(path))), CutOf(path)) == path
  {
    var name := NormalizeKey(path[0]);
    var child := node.children[name];
    var rest := if |path| == 1 then [] else Split(Join(Normalized(path[1..])));
    JoinSplit(name);
    TokensOfPath(path);
    if |path| == 1 {
      assert path[1..] == [];
    } else {
      EveryPathHasACut(child, path[1..]);
    }
    WalksGroup(node, Split(name), rest, CutOf(path[1..]));
    assert path == [child.key] + path[1..];
  }

  /** The tokens of a path are those of its first key, followed by those of the others. */
  lemma TokensOfPath(path: seq<string>)
    requires path != []
    ensures Split(Join(Normalized(path))) ==
      Split(NormalizeKey(path[0])) + if |path| == 1 then [] else Split(Join(Normalized(path[1..])))
  {
    if |path| > 1 {
      assert Normalized(path)[1..] == Normalized(path[1..]);
      SplitConcat(NormalizeKey(path[0]), Join(Normalized(path[1..])));
    }
  }

  /** A group that names a child, followed by a walk from that child, is a walk. */
  lemma WalksGroup(node: Node, group: seq<string>, rest: seq<string>, cut: seq<nat>)
    requires group != [] && Join(group) in node.children && Walks(node.children[Join(group)], rest, cut)
    ensures Walks(node, group + rest, [|group|] + cut)
    ensures var child := node.children[Join(group)];
            PathOf(node, group + rest, [|group|] + cut) == [child.key] + PathOf(child, rest, cut)
  {
    assert (group + rest)[..|group|] == group && (group + rest)[|group|..] == rest;
    assert ([|group|] + cut)[1..] == cut;
  }

  lemma {:induction false} WalksArePaths(node: Node, tokens: seq<string>, cut: seq<nat>)
    requires WellKeyed(node) && Walks(node, tokens, cut)
    ensures IsPath(node, PathOf(node, tokens, cut))
  {
    if cut != [] {
      WalksArePaths(node.children[Join(tokens[..cut[0]])], tokens[cut[0]..], cut[1..]);
      var path := PathOf(node, tokens, cut);
      assert path[1..] == PathOf(node.children[Join(tokens[..cut[0]])], tokens[cut[0]..], cut[1..]);
    }
  }

  /** Some field below the tree is named by the lower-cased segment. */
  ghost predicate Names(tree: Node, segment: string) {
    exists path :: path != [] && IsPath(tree, path) && Join(Normalized(path)) == Lower(segment)
  }

  /** The path for a variable name, or the empty path. It is found exactly when some field has that name; it leads to
    * a field of that name; and where the name is ambiguous, it is the one that takes the longest keys first. */
  method BuildPathFromKey(segment: string, tree: Node) returns (path: seq<string>)
    requires WellKeyed(tree)
    ensures path != [] <==> Names(tree, segment)
    ensures path != [] ==> IsPath(tree, path) && Join(Normalized(path)) == Lower(segment)
    ensures path != [] ==> exists cut: seq<nat> :: LeadsTo(tree, Split(Lower(segment)), cut, path)
  {
    var tokens := Split(Lower(segment));
    var found, cut := MatchFieldPath(tree, tokens);
    forall p | p != [] && IsPath(tree, p) && Join(Normalized(p)) == Lower(segment) ensures Matches(tree, tokens) {
      EveryPathHasACut(tree, p);
    }
    if found.None? {
      return [];
    }
    PathSpellsTokens(tree, tokens, cut);
    WalksArePaths(tree, tokens, cut);
    JoinSplit(Lower(segment));
    path := found.value;
    assert LeadsTo(tree, tokens, cut, path);
  }
}
