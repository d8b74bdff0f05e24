/** The syntax worker: classification of parse-tree node types, the cursor walk that turns a
    tree into highlight tokens, and the INIT / LOAD_LANG / PARSE message handling. The parser
    itself is external: a parse tree and a loaded grammar arrive as parameters. */
module SyntaxWorker {
  import opened Common

  /** The highlight classes `getNodeType` returns. */
  datatype NodeType = StringType | Comment | Function | Number | Keyword | Default

  /** What the worker posts and the overlay paints: `{ start, end, type }`. */
  datatype Token = Token(start: int, end: int, nodeType: NodeType)

  const StringTypes: seq<string> := ["string", "string_literal"]
  const CommentTypes: seq<string> := ["comment", "line_comment", "block_comment"]
  const FunctionTypes: seq<string> := ["function", "function_declaration", "method_definition", "identifier"]
  const NumberTypes: seq<string> := ["number", "integer"]
  const KeywordParts: seq<string> := ["keyword", "return_statement", "if_statement", "for_statement"]

  /** `KEYWORDS.some(k => nodeType.includes(k))`. */
  predicate ContainsSome(s: string, parts: seq<string>) {
    exists k :: 0 <= k < |parts| && Contains(s, parts[k])
  }

  /** `getNodeType`: the first list the tree-sitter type belongs to decides, and keywords
      match by substring. */
  function GetNodeType(nodeType: string): NodeType {
    if nodeType in StringTypes then StringType
    else if nodeType in CommentTypes then Comment
    else if nodeType in FunctionTypes then Function
    else if nodeType in NumberTypes then Number
    else if ContainsSome(nodeType, KeywordParts) then Keyword
    else Default
  }

  /** The four exact-name lists share no name, so each of those classes is exactly its list,
      checked in any order; keywords are what contains a keyword part and is in no list. */
  lemma GetNodeTypeClasses(nodeType: string)
    ensures GetNodeType(nodeType) == StringType <==> nodeType in StringTypes
    ensures GetNodeType(nodeType) == Comment <==> nodeType in CommentTypes
    ensures GetNodeType(nodeType) == Function <==> nodeType in FunctionTypes
    ensures GetNodeType(nodeType) == Number <==> nodeType in NumberTypes
    ensures GetNodeType(nodeType) == Keyword <==>
      nodeType !in StringTypes + CommentTypes + FunctionTypes + NumberTypes && ContainsSome(nodeType, KeywordParts)
    ensures GetNodeType(nodeType) == Default <==>
      nodeType !in StringTypes + CommentTypes + FunctionTypes + NumberTypes && !ContainsSome(nodeType, KeywordParts)
  {
  }

  /** No name of the four exact-name lists holds a keyword part, so the substring test that
      comes last is never shadowed: a type paints as a keyword exactly when it holds one. */
  lemma {:induction false} KeywordsAreExactlyKeywordParts(nodeType: string)
    ensures GetNodeType(nodeType) == Keyword <==> ContainsSome(nodeType, KeywordParts)
  {
    if nodeType in StringTypes + CommentTypes + FunctionTypes + NumberTypes {
      NoExactNameHoldsKeywordPart(nodeType);
    }
  }

  /** Each exact name against each keyword part: either the part is at least as long, or one
      of its letters is missing from the name. */
  lemma NoExactNameHoldsKeywordPart(s: string)
    requires s in StringTypes + CommentTypes + FunctionTypes + NumberTypes
    ensures !ContainsSome(s, KeywordParts)
  {
    forall k | 0 <= k < |KeywordParts| ensures !Contains(s, KeywordParts[k]) {
      if k == 0 {
        NoExactNameHoldsW(s);
      } else {
        NoExactNameHoldsStatement(s, KeywordParts[k]);
      }
    }
  }

  /** No exact name has a `w`, so none holds `keyword`. */
  lemma NoExactNameHoldsW(s: string)
    requires s in StringTypes + CommentTypes + FunctionTypes + NumberTypes
    ensures !Contains(s, "keyword")
  {
    assert 'w' !in s;
    MissingLetter(s, "keyword", 'w');
  }

  /** The statement parts are longer than every exact name but four; `string_literal` has
      no `f` and the other three no `s`. */
  lemma NoExactNameHoldsStatement(s: string, k: string)
    requires s in StringTypes + CommentTypes + FunctionTypes + NumberTypes
    requires k in ["return_statement", "if_statement", "for_statement"]
    ensures !Contains(s, k)
  {
    if |k| >= |s| {
      NotContained(s, k);
    } else if s == "string_literal" {
      MissingLetter(s, k, 'f');
    } else {
      assert s in ["block_comment", "function_declaration", "method_definition"];
      MissingLetter(s, k, 's');
    }
  }

  /** A string does not contain a string with a letter it lacks. */
  lemma MissingLetter(s: string, k: string, c: char)
    requires c in k && c !in s
    ensures !Contains(s, k)
  {
    var j :| 0 <= j < |k| && k[j] == c;
    forall i: nat ensures !OccursAt(s, k, i) {
      if i + |k| <= |s| {
        assert s[i..i + |k|][j] != k[j];
      }
    }
  }

  /** A string does not contain a different string at least as long as itself. */
  lemma NotContained(s: string, k: string)
    requires |k| >= |s| && s != k
    ensures !Contains(s, k)
  {
    forall i: nat ensures !OccursAt(s, k, i) {
      if i + |k| <= |s| {
        assert s[i..i + |k|] == s;
      }
    }
  }

  /** A parse-tree node: whether it is named, its tree-sitter type, its source span and its
      children. */
  datatype Node = Node(named: bool, nodeType: string, start: int, end: int, children: seq<Node>)

  /** The nodes of a tree in preorder. */
  function Preorder(n: Node): (r: seq<Node>)
    ensures |r| >= 1 && r[0] == n
  {
    [n] + PreorderAll(n.children)
  }

  /** The preorders of a forest, one tree after the other. */
  function PreorderAll(ns: seq<Node>): seq<Node> {
    if ns == [] then [] else Preorder(ns[0]) + PreorderAll(ns[1..])
  }

  /** The number of nodes of a tree. */
  function Size(n: Node): nat {
    1 + SizeAll(n.children)
  }

  function SizeAll(ns: seq<Node>): nat {
    if ns == [] then 0 else Size(ns[0]) + SizeAll(ns[1..])
  }

  /** Preorder lists every node of the tree once: as many entries as the tree has nodes. */
  lemma {:induction false} PreorderCountsNodes(n: Node)
    ensures |Preorder(n)| == Size(n)
  {
    PreorderAllCountsNodes(n.children);
  }

  lemma {:induction false} PreorderAllCountsNodes(ns: seq<Node>)
    ensures |PreorderAll(ns)| == SizeAll(ns)
  {
    if ns != [] {
      PreorderCountsNodes(ns[0]);
      PreorderAllCountsNodes(ns[1..]);
    }
  }

  /** The token a node contributes: only named nodes of a highlighted class. */
  function TokenOf(n: Node): Option<Token> {
    var t := GetNodeType(n.nodeType);
    if n.named && t != Default then Some(Token(n.start, n.end, t)) else None
  }

  /** The tokens of a node list, in order. */
  function TokensOf(ns: seq<Node>): (r: seq<Token>)
    ensures |r| <= |ns|
  {
    if ns == [] then []
    else match TokenOf(ns[0])
      case Some(t) => [t] + TokensOf(ns[1..])
      case None => TokensOf(ns[1..])
  }

  lemma {:induction false} TokensOfAppend(a: seq<Node>, b: seq<Node>)
    ensures TokensOf(a + b) == TokensOf(a) + TokensOf(b)
  {
    if a == [] {
      assert a + b == b;
    } else {
      assert (a + b)[0] == a[0];
      assert (a + b)[1..] == a[1..] + b;
      TokensOfAppend(a[1..], b);
      match TokenOf(a[0])
      case Some(t) =>
        assert TokensOf(a + b) == [t] + (TokensOf(a[1..]) + TokensOf(b));
      case None =>
    }
  }

  /** Every token comes from a named, highlighted node with that node's span, and every such
      node gives a token. */
  lemma {:induction false} TokensOfSound(ns: seq<Node>)
    ensures forall t :: t in TokensOf(ns) ==>
      exists n :: n in ns && n.named && GetNodeType(n.nodeType) != Default
                  && t == Token(n.start, n.end, GetNodeType(n.nodeType))
    ensures forall n :: n in ns && n.named && GetNodeType(n.nodeType) != Default ==>
      Token(n.start, n.end, GetNodeType(n.nodeType)) in TokensOf(ns)
  {
    if ns != [] {
      TokensOfSound(ns[1..]);
      assert forall n :: n in ns ==> n == ns[0] || n in ns[1..];
    }
  }

  /** One level of the cursor's path: the siblings and which of them the cursor is on. */
  datatype Frame = Frame(siblings: seq<Node>, index: nat)

  predicate ValidPath(path: seq<Frame>, root: Node) {
    && |path| >= 1
    && path[0] == Frame([root], 0)
    && FramesInRange(path)
  }

  /** The nodes a preorder walk still visits after the subtree of the cursor's node. */
  function After(path: seq<Frame>): seq<Node>
    requires FramesInRange(path)
  {
    if path == [] then []
    else
      var f := Last(path);
      PreorderAll(f.siblings[f.index + 1..]) + After(path[..|path| - 1])
  }

  lemma PreorderAllCons(ns: seq<Node>, i: nat)
    requires i < |ns|
    ensures PreorderAll(ns[i..]) == Preorder(ns[i]) + PreorderAll(ns[i + 1..])
  {
    assert ns[i..][1..] == ns[i + 1..];
  }

  /** `tree.walk()`: a cursor over a parse tree, kept as the path from the root. */
  class TreeCursor {
    var path: seq<Frame>
    const root: Node

    predicate Valid()
      reads this
    {
      ValidPath(path, root)
    }

    /** The node the cursor is on. */
    function Current(): Node
      reads this
      requires Valid()
    {
      CurrentOf(path)
    }

    constructor (root: Node)
      ensures this.root == root && path == [Frame([root], 0)] && Valid()
    {
      this.root := root;
      path := [Frame([root], 0)];
    }

    /** `gotoFirstChild`: descends when the current node has children. */
    method GotoFirstChild() returns (moved: bool)
      requires Valid()
      modifies this`path
      ensures Valid()
      ensures moved <==> old(Current()).children != []
      ensures moved ==> path == old(path) + [Frame(old(Current()).children, 0)]
      ensures !moved ==> path == old(path)
    {
      var children := Current().children;
      if children == [] {
        return false;
      }
      path := path + [Frame(children, 0)];
      return true;
    }

    /** `gotoNextSibling`: moves right when there is a sibling to the right. */
    method GotoNextSibling() returns (moved: bool)
      requires Valid()
      modifies this`path
      ensures Valid()
      ensures moved <==> Last(old(path)).index + 1 < |Last(old(path)).siblings|
      ensures moved ==> path == old(path)[..|old(path)| - 1] + [Frame(Last(old(path)).siblings, Last(old(path)).index + 1)]
      ensures !moved ==> path == old(path)
    {
      var f := Last(path);
      if f.index + 1 >= |f.siblings| {
        return false;
      }
      path := path[..|path| - 1] + [Frame(f.siblings, f.index + 1)];
      return true;
    }

    /** `gotoParent`: moves up unless the cursor is on the root. */
    method GotoParent() returns (moved: bool)
      requires Valid()
      modifies this`path
      ensures Valid()
      ensures moved <==> |old(path)| > 1
      ensures moved ==> path == old(path)[..|old(path)| - 1]
      ensures !moved ==> path == old(path)
    {
      if |path| == 1 {
        return false;
      }
      path := path[..|path| - 1];
      return true;
    }
  }

  predicate FramesInRange(path: seq<Frame>) {
    forall k :: 0 <= k < |path| ==> path[k].index < |path[k].siblings|
  }

  /** The node a path ends on. */
  function CurrentOf(path: seq<Frame>): Node
    requires |path| >= 1 && FramesInRange(path)
  {
    Last(path).siblings[Last(path).index]
  }

  /** Descending to the first child: the rest of the node's subtree, then what followed it,
      is the first child's subtree followed by what the deeper path still has to visit. */
  lemma AfterDescend(path: seq<Frame>, cs: seq<Node>)
    requires |path| >= 1 && FramesInRange(path) && cs == CurrentOf(path).children && cs != []
    ensures FramesInRange(path + [Frame(cs, 0)])
    ensures PreorderAll(cs) + After(path) == Preorder(cs[0]) + After(path + [Frame(cs, 0)])
  {
    AfterPush(path, Frame(cs, 0));
    PreorderAllCons(cs, 0);
    assert cs[0..] == cs;
  }

  /** A frame pushed on a path adds its right siblings' subtrees in front. */
  lemma AfterPush(path: seq<Frame>, f: Frame)
    requires FramesInRange(path) && f.index < |f.siblings|
    ensures FramesInRange(path + [f])
    ensures After(path + [f]) == PreorderAll(f.siblings[f.index + 1..]) + After(path)
  {
    var p' := path + [f];
    assert forall k :: 0 <= k < |path| ==> p'[k] == path[k];
    assert p'[..|p'| - 1] == path;
  }

  /** Moving to the next sibling: what followed the finished subtree starts with that
      sibling's subtree. */
  lemma AfterSibling(path: seq<Frame>)
    requires |path| >= 1 && FramesInRange(path)
    requires Last(path).index + 1 < |Last(path).siblings|
    ensures var p' := path[..|path| - 1] + [Frame(Last(path).siblings, Last(path).index + 1)];
      FramesInRange(p') && CurrentOf(p') == Last(path).siblings[Last(path).index + 1]
      && After(path) == Preorder(CurrentOf(p')) + After(p')
  {
    var f := Last(path);
    var p' := path[..|path| - 1] + [Frame(f.siblings, f.index + 1)];
    assert p'[..|p'| - 1] == path[..|path| - 1];
    PreorderAllCons(f.siblings, f.index + 1);
  }

  /** Moving up from a last child leaves nothing behind at that level. */
  lemma AfterParent(path: seq<Frame>)
    requires |path| > 1 && FramesInRange(path)
    requires Last(path).index + 1 == |Last(path).siblings|
    ensures FramesInRange(path[..|path| - 1]) && After(path) == After(path[..|path| - 1])
  {
    var f := Last(path);
    assert f.siblings[f.index + 1..] == [];
  }

  /** At the root nothing is left to visit. */
  lemma AfterRoot(path: seq<Frame>, root: Node)
    requires ValidPath(path, root) && |path| == 1
    ensures After(path) == []
  {
    assert path[..0] == [];
  }

  /** Visiting the first node of what remains. */
  lemma VisitFirst(visited: seq<Node>, rest: seq<Node>, root: Node)
    requires |rest| >= 1 && visited + rest == Preorder(root)
    ensures (visited + [rest[0]]) + rest[1..] == Preorder(root)
  {
    assert visited + rest == (visited + [rest[0]]) + rest[1..];
  }

  /** Once the node is visited, its children's subtrees come next. */
  lemma RestAfterVisit(node: Node, path: seq<Frame>)
    requires FramesInRange(path)
    ensures (Preorder(node) + After(path))[1..] == PreorderAll(node.children) + After(path)
  {
  }

  /** The retracing loop of `getTokens`: climbs until some ancestor has a next sibling, or
      the root is reached. */
  method Retrace(cursor: TreeCursor, ghost rest: seq<Node>) returns (reachedRoot: bool)
    requires cursor.Valid() && rest == After(cursor.path)
    requires Last(cursor.path).index + 1 == |Last(cursor.path).siblings|
    modifies cursor`path
    ensures cursor.Valid()
    ensures reachedRoot ==> rest == []
    ensures !reachedRoot ==> rest == Preorder(cursor.Current()) + After(cursor.path)
  {
    reachedRoot := false;
    var retracing := true;
    while retracing
      invariant cursor.Valid()
      invariant retracing ==> !reachedRoot && rest == After(cursor.path)
      invariant retracing ==> Last(cursor.path).index + 1 == |Last(cursor.path).siblings|
      invariant !retracing && !reachedRoot ==> rest == Preorder(cursor.Current()) + After(cursor.path)
      invariant !retracing && reachedRoot ==> rest == []
      decreases if retracing then |cursor.path| + 1 else 0
    {
      ghost var q := cursor.path;
      var moved := cursor.GotoParent();
      if !moved {
        AfterRoot(q, cursor.root);
        retracing := false;
        reachedRoot := true;
      } else {
        AfterParent(q);
        ghost var q' := cursor.path;
        moved := cursor.GotoNextSibling();
        if moved {
          AfterSibling(q');
          retracing := false;
        }
      }
    }
  }

  /** Moves the cursor to the next node in preorder, once its node is visited: the first
      child, else the next sibling, else the next sibling of the nearest ancestor that has
      one; `reachedRoot` when there is none. */
  method Advance(cursor: TreeCursor, ghost rest: seq<Node>) returns (reachedRoot: bool)
    requires cursor.Valid() && rest == PreorderAll(cursor.Current().children) + After(cursor.path)
    modifies cursor`path
    ensures cursor.Valid()
    ensures reachedRoot ==> rest == []
    ensures !reachedRoot ==> rest == Preorder(cursor.Current()) + After(cursor.path)
  {
    ghost var p := cursor.path;
    ghost var cs := cursor.Current().children;
    var moved := cursor.GotoFirstChild();
    if moved {
      AfterDescend(p, cs);
      return false;
    }
    moved := cursor.GotoNextSibling();
    if moved {
      AfterSibling(p);
      return false;
    }
    reachedRoot := Retrace(cursor, rest);
  }

  /** `getTokens`: the cursor walk emits the tokens of the tree's nodes in preorder. */
  method GetTokens(root: Node) returns (tokens: seq<Token>)
    ensures tokens == TokensOf(Preorder(root))
  {
    var cursor := new TreeCursor(root);
    tokens := [];
    ghost var visited: seq<Node> := [];
    ghost var rest: seq<Node> := Preorder(root);
    var reachedRoot := false;
    AfterRoot(cursor.path, root);
    while !reachedRoot
      invariant cursor.Valid() && cursor.root == root
      invariant tokens == TokensOf(visited)
      invariant visited + rest == Preorder(root)
      invariant !reachedRoot ==> rest == Preorder(cursor.Current()) + After(cursor.path)
      invariant reachedRoot ==> rest == []
      decreases |rest|
    {
      var node := cursor.Current();
      TokensOfAppend(visited, [node]);
      if node.named {
        var t := GetNodeType(node.nodeType);
        if t != Default {
          tokens := tokens + [Token(node.start, node.end, t)];
        }
      }
      VisitFirst(visited, rest, root);
      RestAfterVisit(node, cursor.path);
      visited, rest := visited + [node], rest[1..];
      reachedRoot := Advance(cursor, rest);
    }
    assert visited == Preorder(root);
  }

  /** A grammar as loaded by `Language.load`, identified by where it was loaded from. */
  datatype Grammar = Grammar(wasmUrl: string)

  /** What the worker posts back. */
  datatype Reply = Ready | LangLoaded(langId: string) | Tokens(tokens: seq<Token>)

  /** The worker's globals: whether a parser exists, the grammar it is set to, the current
      language and the grammar cache; `posted` is every reply so far. */
  class Highlighter {
    var parser: bool
    var parserLanguage: Option<Grammar>
    var currentLangId: Option<string>
    var languagesCache: map<string, Grammar>
    var posted: seq<Reply>

    constructor ()
      ensures !parser && parserLanguage == None && currentLangId == None
      ensures languagesCache == map[] && posted == []
    {
      parser := false;
      parserLanguage := None;
      currentLangId := None;
      languagesCache := map[];
      posted := [];
    }

    /** INIT: `initialised` is whether `Parser.init` succeeded; a failure is caught and
        changes nothing. A success replaces the parser with a fresh one, set to no grammar,
        while the current language id and the cache survive. */
    method Init(initialised: bool)
      modifies this
      ensures initialised ==> parser && parserLanguage == None && posted == old(posted) + [Ready]
      ensures !initialised ==>
        parser == old(parser) && parserLanguage == old(parserLanguage) && posted == old(posted)
      ensures currentLangId == old(currentLangId) && languagesCache == old(languagesCache)
    {
      if initialised {
        parser := true;
        parserLanguage := None;
        posted := posted + [Ready];
      }
    }

    /** LOAD_LANG: `load` is what `Language.load(wasmUrl)` gives, `None` when it throws; it is
        consulted only when the language is not cached yet. */
    method LoadLang(langId: string, load: Option<Grammar>)
      modifies this
      ensures langId in old(languagesCache) ==> languagesCache == old(languagesCache)
      ensures parser == old(parser)
      ensures langId !in old(languagesCache) && load.None? ==>
        languagesCache == old(languagesCache) && currentLangId == old(currentLangId)
        && parserLanguage == old(parserLanguage) && posted == old(posted)
      ensures langId !in old(languagesCache) && load.Some? ==>
        languagesCache == old(languagesCache)[langId := load.value]
      ensures langId in old(languagesCache) || load.Some? ==>
        && langId in languagesCache
        && posted == old(posted) + [LangLoaded(langId)]
        && (parser ==> currentLangId == Some(langId) && parserLanguage == Some(languagesCache[langId]))
        && (!parser ==> currentLangId == old(currentLangId) && parserLanguage == old(parserLanguage))
    {
      if langId !in languagesCache {
        if load.None? {
          return;
        }
        languagesCache := languagesCache[langId := load.value];
      }
      if parser {
        parserLanguage := Some(languagesCache[langId]);
        currentLangId := Some(langId);
      }
      posted := posted + [LangLoaded(langId)];
    }

    /** PARSE: `tree` is what the parser makes of `code` under the current grammar. */
    method Parse(code: string, langId: string, tree: Node)
      modifies this`posted
      ensures !parser || currentLangId != Some(langId) || parserLanguage.None? ==> posted == old(posted)
      ensures parser && currentLangId == Some(langId) && parserLanguage.Some? ==>
        posted == old(posted) + [Tokens(TokensOf(Preorder(tree)))]
    {
      if !parser || currentLangId != Some(langId) {
        return;
      }
      if parserLanguage.None? {
        // `parser.parse` on a parser set to no grammar fails, and the catch swallows it
        return;
      }
      var tokens := GetTokens(tree);
      posted := posted + [Tokens(tokens)];
    }

    /** A second INIT after a language was loaded leaves the current id in place but the new
        parser without a grammar, so a PARSE for that language posts no tokens until the
        language is loaded again. */
    method ReinitThenParse(langId: string, load: Option<Grammar>, code: string, tree: Node)
      requires parser
      modifies this
      ensures posted == old(posted) + (if langId in old(languagesCache) || load.Some? then [LangLoaded(langId)] else []) + [Ready]
    {
      LoadLang(langId, load);
      Init(true);
      Parse(code, langId, tree);
    }
  }
}
