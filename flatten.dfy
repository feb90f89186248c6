/** The tree flattener `flattenItems`: a depth-first, pre-order walk that keeps the
    request leaves and labels each with its immediate parent folder. */
module Flatten {
  import opened Optional
  import opened Collection

  /** The requests of `items`, in pre-order, as a recursive definition. */
  function Flattened(items: seq<Node>, folder: Option<string>): seq<FlatRequest>
  {
    if items == [] then []
    else
      (match items[0]
       case Folder(name, children) => Flattened(children, Some(name))
       case Request(name, request) => [FlatRequest(name, request, folder)]
       case Other => [])
      + Flattened(items[1..], folder)
  }

  /** The number of request leaves reachable through folders. */
  function RequestCount(items: seq<Node>): nat
  {
    if items == [] then 0
    else
      (match items[0]
       case Folder(_, children) => RequestCount(children)
       case Request(_, _) => 1
       case Other => 0)
      + RequestCount(items[1..])
  }

  /** `r` is a request leaf reachable from `items` through folders, labelled with the
      name of the folder it sits in directly (`folder` when it sits in `items` itself). */
  ghost predicate Reaches(items: seq<Node>, folder: Option<string>, r: FlatRequest)
  {
    exists i :: 0 <= i < |items| && ReachesFrom(items[i], folder, r)
  }

  ghost predicate ReachesFrom(n: Node, folder: Option<string>, r: FlatRequest)
  {
    match n
    case Folder(name, children) => Reaches(children, Some(name), r)
    case Request(name, request) => r == FlatRequest(name, request, folder)
    case Other => false
  }

  /** Flattening a concatenation is the concatenation of the flattenings; with the
      three one-entry cases below this fixes the pre-order. */
  lemma {:induction false} FlattenedAppend(a: seq<Node>, b: seq<Node>, folder: Option<string>)
    ensures Flattened(a + b, folder) == Flattened(a, folder) + Flattened(b, folder)
  {
    if a == [] {
      assert a + b == b;
    } else {
      assert (a + b)[0] == a[0];
      assert (a + b)[1..] == a[1..] + b;
      FlattenedAppend(a[1..], b, folder);
    }
  }

  /** Pre-order: a folder contributes its contents, labelled with its own name, in
      place; a request contributes itself with the current label; anything else nothing. */
  lemma {:induction false} FlattenedPreOrder(before: seq<Node>, n: Node, after: seq<Node>, folder: Option<string>)
    ensures Flattened(before + [n] + after, folder) ==
      Flattened(before, folder)
      + (match n
         case Folder(name, children) => Flattened(children, Some(name))
         case Request(name, request) => [FlatRequest(name, request, folder)]
         case Other => [])
      + Flattened(after, folder)
  {
    FlattenedAppend(before + [n], after, folder);
    FlattenedAppend(before, [n], folder);
    assert [n][1..] == [];
  }

  /** Exactly the request leaves are kept: one output record per request node. */
  lemma {:induction false} FlattenedCount(items: seq<Node>, folder: Option<string>)
    ensures |Flattened(items, folder)| == RequestCount(items)
  {
    if items != [] {
      FlattenedCount(items[1..], folder);
      match items[0]
      case Folder(name, children) => FlattenedCount(children, Some(name));
      case Request(_, _) =>
      case Other =>
    }
  }

  /** A record is in the output exactly when it is a reachable leaf with its
      immediate parent's name (or the caller's label for top-level requests). */
  lemma {:induction false} FlattenedMembers(items: seq<Node>, folder: Option<string>, r: FlatRequest)
    ensures r in Flattened(items, folder) <==> Reaches(items, folder, r)
  {
    if items == [] {
    } else {
      FlattenedMembers(items[1..], folder, r);
      var head := match items[0]
        case Folder(name, children) => Flattened(children, Some(name))
        case Request(name, request) => [FlatRequest(name, request, folder)]
        case Other => [];
      assert Flattened(items, folder) == head + Flattened(items[1..], folder);
      assert r in head <==> ReachesFrom(items[0], folder, r) by {
        match items[0]
        case Folder(name, children) => FlattenedMembers(children, Some(name), r);
        case Request(_, _) =>
        case Other =>
      }
      if Reaches(items, folder, r) {
        var i :| 0 <= i < |items| && ReachesFrom(items[i], folder, r);
        if i > 0 {
          assert items[1..][i - 1] == items[i];
        }
      }
      if Reaches(items[1..], folder, r) {
        var i :| 0 <= i < |items[1..]| && ReachesFrom(items[1..][i], folder, r);
        assert items[i + 1] == items[1..][i];
      }
    }
  }

  /** `flattenItems(items, folderName)`: the loop pushes each request, and the
      flattening of each folder's children labelled with the folder's name. */
  method FlattenItems(items: seq<Node>, folder: Option<string>) returns (requests: seq<FlatRequest>)
    ensures requests == Flattened(items, folder)
  {
    requests := [];
    for i := 0 to |items|
      invariant requests == Flattened(items[..i], folder)
    {
      FlattenedPreOrder(items[..i], items[i], [], folder);
      assert items[..i] + [items[i]] + [] == items[..i + 1];
      match items[i]
      case Folder(name, children) => {
        var sub := FlattenItems(children, Some(name));
        requests := requests + sub;
      }
      case Request(name, request) => {
        requests := requests + [FlatRequest(name, request, folder)];
      }
      case Other => {
      }
    }
    assert items[..|items|] == items;
  }
}
