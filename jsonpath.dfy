/** `JSONPath.Parse` of metric/markers.go: the post-processing that turns
    the JSONPath library's parse tree into a sequence of field names. The
    library itself is an oracle: `Library` maps the marker's path text to
    the tree the library builds for the text wrapped in braces. */
module JsonPath {
  import opened Outcomes

  /** Nodes of the library's parse tree, as far as this code tells them apart. */
  datatype Node =
    | FieldNode(value: string)
    | ListNode(nodes: seq<Node>)
    | OtherNode(kind: string)   // every other node type of the library

  /** What the library returns: an error, or the root node's children. */
  datatype LibOutcome = LibError(message: string) | Tree(root: seq<Node>)

  type Library = string -> LibOutcome

  datatype ParseError =
    | LibraryFailed(message: string)    // "parse JSONPath: %w"
    | NotSingle(count: nat)             // "expected a single JSONPath, got %d"
    | NotFieldNode                      // "unable to typecast to jsonpath.NodeField"
    | UnexpectedNodeType(kind: string)  // "unexcepted jsonpath node type: %q"
    | EmptyRoot                         // `Root.Nodes[0]` on an empty root: an index panic in Go

  function NodeKind(n: Node): string
  {
    match n
    case FieldNode(_) => "NodeField"
    case ListNode(_) => "NodeList"
    case OtherNode(k) => k
  }

  /** The values of a list's elements, failing at the first one that is not a field node. */
  function FieldValues(nodes: seq<Node>): (r: Result<seq<string>, ParseError>)
    ensures r.Ok? <==> forall i :: 0 <= i < |nodes| ==> nodes[i].FieldNode?
    ensures r.Err? ==> r.error == NotFieldNode
    ensures r.Ok? ==> |r.value| == |nodes| &&
                      forall i :: 0 <= i < |nodes| ==> r.value[i] == nodes[i].value
  {
    if |nodes| == 0 then Ok([])
    else match nodes[0]
      case FieldNode(v) =>
        var rest :- FieldValues(nodes[1..]);
        Ok([v] + rest)
      case _ => Err(NotFieldNode)
  }

  /** Post-processing of a library result (markers.go `JSONPath.Parse`). */
  function FromTree(lib: LibOutcome): (r: Result<seq<string>, ParseError>)
    ensures lib.LibError? ==> r == Err(LibraryFailed(lib.message))
    ensures lib.Tree? && |lib.root| > 1 ==> r == Err(NotSingle(|lib.root|))
    ensures r.Ok? <==> lib.Tree? && |lib.root| == 1 && lib.root[0].ListNode? &&
                       forall i :: 0 <= i < |lib.root[0].nodes| ==> lib.root[0].nodes[i].FieldNode?
    ensures r.Ok? ==> |r.value| == |lib.root[0].nodes| &&
                      forall i :: 0 <= i < |r.value| ==> r.value[i] == lib.root[0].nodes[i].value
  {
    match lib
    case LibError(msg) => Err(LibraryFailed(msg))
    case Tree(root) =>
      if |root| > 1 then Err(NotSingle(|root|))
      else if |root| == 0 then Err(EmptyRoot)
      else match root[0]
        case ListNode(nodes) => FieldValues(nodes)
        case _ => Err(UnexpectedNodeType(NodeKind(root[0])))
  }

  /** Parses a path expression with the library, then post-processes the tree. */
  function Parse(lib: Library, path: string): (r: Result<seq<string>, ParseError>)
    ensures lib(path).LibError? ==> r == Err(LibraryFailed(lib(path).message))
    ensures lib(path).Tree? && |lib(path).root| != 1 ==> r.Err? && !r.error.NotFieldNode?
    ensures r.Ok? <==> lib(path).Tree? && |lib(path).root| == 1 && lib(path).root[0].ListNode? &&
                       forall i :: 0 <= i < |lib(path).root[0].nodes| ==> lib(path).root[0].nodes[i].FieldNode?
    ensures r.Ok? ==> |r.value| == |lib(path).root[0].nodes| &&
                      forall i :: 0 <= i < |r.value| ==> r.value[i] == lib(path).root[0].nodes[i].value
  {
    FromTree(lib(path))
  }

  /** The one-chain case: a single list of field nodes gives its values, one per node. */
  lemma ParseFieldChain(lib: Library, path: string, names: seq<string>)
    requires lib(path) == Tree([ListNode(seq(|names|, i requires 0 <= i < |names| => FieldNode(names[i])))])
    ensures Parse(lib, path) == Ok(names)
  {
    var r := Parse(lib, path);
    assert r.Ok? && |r.value| == |names|;
    assert forall i :: 0 <= i < |names| ==> r.value[i] == names[i];
    assert r.value == names;
  }

  /** A single root node that is not a list is rejected with its node type. */
  lemma ParseRejectsNonList(lib: Library, path: string, n: Node)
    requires lib(path) == Tree([n]) && !n.ListNode?
    ensures Parse(lib, path) == Err(UnexpectedNodeType(NodeKind(n)))
  {
  }

  /** Parses each label path of a marker; with `dotIsEmpty`, the value `.`
      stands for the empty path and is not parsed. Any failure is fatal. */
  function ParseLabels(lib: Library, labels: map<string, string>, dotIsEmpty: bool)
    : (r: Outcome<map<string, seq<string>>>)
    ensures r.Done? || r.Fatal?
    ensures r.Fatal? <==> exists k :: k in labels && !(dotIsEmpty && labels[k] == ".") && Parse(lib, labels[k]).Err?
    ensures r.Done? ==> r.value.Keys == labels.Keys
    ensures r.Done? ==> forall k :: k in labels ==>
      r.value[k] == if dotIsEmpty && labels[k] == "." then [] else Parse(lib, labels[k]).value
  {
    if exists k :: k in labels && !(dotIsEmpty && labels[k] == ".") && Parse(lib, labels[k]).Err? then Fatal
    else Done(map k | k in labels :: if dotIsEmpty && labels[k] == "." then [] else Parse(lib, labels[k]).value)
  }
}
