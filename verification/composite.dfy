/**
 * Composite: files and directories share one component interface; a
 * directory's size is the sum of its children's, and `ls` lists a directory
 * before its children.
 */
module Composite {
  import opened Sequences

  /** The shape of an acyclic component graph, as getSize and ls see it. */
  datatype Tree = FileNode(name: string, size: int) | DirectoryNode(name: string, children: seq<Tree>)

  /** One line printed by ls. */
  datatype Listing = FileLine(name: string, size: int) | DirectoryLine(name: string, size: int)

  function Size(t: Tree): (size: int)
    decreases t, 1
  {
    match t
    case FileNode(_, size) => size
    case DirectoryNode(_, children) => SumSizes(children)
  }

  /** The sizes of `trees` added up from the first to the last, as getSize's loop does. */
  function SumSizes(trees: seq<Tree>): int
    decreases trees, 0
  {
    if trees == [] then 0 else SumSizes(trees[..|trees| - 1]) + Size(trees[|trees| - 1])
  }

  /** Pre-order listing: a directory, then each child's listing in order. */
  function Listed(t: Tree): seq<Listing>
    decreases t, 1
  {
    match t
    case FileNode(name, size) => [FileLine(name, size)]
    case DirectoryNode(name, children) => [DirectoryLine(name, Size(t))] + ListedAll(children)
  }

  function ListedAll(trees: seq<Tree>): seq<Listing>
    decreases trees, 0
  {
    if trees == [] then [] else ListedAll(trees[..|trees| - 1]) + Listed(trees[|trees| - 1])
  }

  /** An empty directory has size 0. */
  lemma EmptyDirectorySize(name: string)
    ensures Size(DirectoryNode(name, [])) == 0
  {
  }

  /** Adding a child adds its size. */
  lemma SizeAfterAdd(name: string, children: seq<Tree>, child: Tree)
    ensures Size(DirectoryNode(name, children + [child])) == Size(DirectoryNode(name, children)) + Size(child)
  {
    assert (children + [child])[..|children|] == children;
  }

  /** Removing the child at index i subtracts its size. */
  lemma {:induction false} SizeAfterRemove(name: string, children: seq<Tree>, i: nat)
    requires i < |children|
    ensures Size(DirectoryNode(name, RemoveAt(children, i))) == Size(DirectoryNode(name, children)) - Size(children[i])
    decreases |children|
  {
    var n := |children|;
    if i < n - 1 {
      var front := children[..n - 1];
      SizeAfterRemove(name, front, i);
      assert RemoveAt(children, i) == RemoveAt(front, i) + [children[n - 1]];
      SizeAfterAdd(name, RemoveAt(front, i), children[n - 1]);
    } else {
      assert RemoveAt(children, i) == children[..n - 1];
    }
  }

  /** A file or a directory. Without traits, one class carries both kinds. */
  class Component {
    const name: string
    const isFile: bool
    /** The size of a file; not used by a directory. */
    const size: int
    var parent: Component?
    /** The children of a directory, in insertion order; always empty for a file. */
    var children: seq<Component>

    constructor File(name: string, size: int)
      ensures this.name == name && isFile && this.size == size
      ensures parent == null && children == []
    {
      this.name := name;
      isFile := true;
      this.size := size;
      parent := null;
      children := [];
    }

    constructor Directory(name: string)
      ensures this.name == name && !isFile
      ensures parent == null && children == []
    {
      this.name := name;
      isFile := false;
      size := 0;
      parent := null;
      children := [];
    }

    method SetParent(parent: Component?)
      modifies this
      ensures this.parent == parent && children == old(children)
    {
      this.parent := parent;
    }

    /** Appends the child and makes this directory its parent; no cycle check. */
    method Add(component: Component)
      requires !isFile
      modifies this, component
      ensures children == old(children) + [component]
      ensures component.parent == this
      ensures component != this ==> component.children == old(component.children)
      ensures component != this ==> parent == old(parent)
    {
      children := children + [component];
      component.SetParent(this);
    }

    /**
     * Deletes the first occurrence of the child, keeping the others in order,
     * and clears its parent; a component that is not a child changes nothing.
     */
    method Remove(component: Component)
      requires !isFile
      modifies this, component
      ensures component !in old(children) ==>
        children == old(children) && component.parent == old(component.parent)
      ensures component in old(children) ==>
        children == RemoveAt(old(children), IndexOf(old(children), component)) &&
        component.parent == null
      ensures component != this ==> component.children == old(component.children)
      ensures component != this ==> parent == old(parent)
    {
      var componentIndex := IndexOf(children, component);
      if componentIndex != -1 {
        children := RemoveAt(children, componentIndex);
        component.SetParent(null);
      }
    }

    /** Sums the sizes of the children, in order; a file answers its own size. */
    method GetSize(ghost t: Tree) returns (totalSize: int)
      requires Shapes(this, t)
      ensures totalSize == Size(t)
      decreases t
    {
      if isFile {
        totalSize := size;
      } else {
        totalSize := 0;
        for i := 0 to |children|
          invariant totalSize == SumSizes(t.children[..i])
        {
          var childSize := children[i].GetSize(t.children[i]);
          assert t.children[..i + 1][..i] == t.children[..i];
          totalSize := totalSize + childSize;
        }
        assert t.children[..|children|] == t.children;
      }
    }

    /** Lists this component, then, for a directory, each child's listing in order. */
    method Ls(ghost t: Tree) returns (lines: seq<Listing>)
      requires Shapes(this, t)
      ensures lines == Listed(t)
      decreases t
    {
      if isFile {
        lines := [FileLine(name, size)];
      } else {
        var total := GetSize(t);
        lines := [DirectoryLine(name, total)];
        for i := 0 to |children|
          invariant lines == [DirectoryLine(name, total)] + ListedAll(t.children[..i])
        {
          var childLines := children[i].Ls(t.children[i]);
          assert t.children[..i + 1][..i] == t.children[..i];
          lines := lines + childLines;
        }
        assert t.children[..|children|] == t.children;
      }
    }
  }

  /** `c` and the components below it have the shape `t` (which makes them acyclic). */
  ghost predicate Shapes(c: Component, t: Tree)
    reads *
    decreases t
  {
    match t
    case FileNode(name, size) => c.isFile && c.name == name && c.size == size
    case DirectoryNode(name, trees) =>
      && !c.isFile && c.name == name && |c.children| == |trees|
      && forall i :: 0 <= i < |trees| ==> Shapes(c.children[i], trees[i])
  }

  function DocumentsTree(): Tree {
    DirectoryNode("Documents", [FileNode("Document1.txt", 100)])
  }

  function PicturesTree(): Tree {
    DirectoryNode("Pictures", [FileNode("Picture1.jpg", 200), FileNode("Picture2.jpg", 300)])
  }

  /** The tree the example builds. */
  function ExampleTree(): Tree {
    DirectoryNode("Root", [DocumentsTree(), PicturesTree()])
  }

  /** Root's size is 100 + (200 + 300). */
  lemma ExampleTreeSize()
    ensures Size(DocumentsTree()) == 100 && Size(PicturesTree()) == 500
    ensures Size(ExampleTree()) == 600
  {
    SizeAfterAdd("Documents", [], FileNode("Document1.txt", 100));
    SizeAfterAdd("Pictures", [], FileNode("Picture1.jpg", 200));
    SizeAfterAdd("Pictures", [FileNode("Picture1.jpg", 200)], FileNode("Picture2.jpg", 300));
    SizeAfterAdd("Root", [], DocumentsTree());
    SizeAfterAdd("Root", [DocumentsTree()], PicturesTree());
  }

  lemma ListedAllPair(a: Tree, b: Tree)
    ensures ListedAll([a, b]) == Listed(a) + Listed(b)
  {
    assert [a, b][..1] == [a];
    assert [a][..0] == [];
    assert ListedAll([a]) == ListedAll([]) + Listed(a);
  }

  /** The root is listed first, then each directory before its files. */
  lemma ExampleTreeListing()
    ensures Listed(ExampleTree()) ==
      [DirectoryLine("Root", 600), DirectoryLine("Documents", 100),
       FileLine("Document1.txt", 100), DirectoryLine("Pictures", 500),
       FileLine("Picture1.jpg", 200), FileLine("Picture2.jpg", 300)]
  {
    ExampleTreeSize();
    assert [FileNode("Document1.txt", 100)][..0] == [];
    ListedAllPair(FileNode("Picture1.jpg", 200), FileNode("Picture2.jpg", 300));
    ListedAllPair(DocumentsTree(), PicturesTree());
  }

  /** The example script: Root holds Documents (100) and Pictures (200, 300). */
  method FileSystemScenario() returns (rootSize: int, listing: seq<Listing>)
    ensures rootSize == 600
    ensures listing == [DirectoryLine("Root", 600), DirectoryLine("Documents", 100),
                        FileLine("Document1.txt", 100), DirectoryLine("Pictures", 500),
                        FileLine("Picture1.jpg", 200), FileLine("Picture2.jpg", 300)]
  {
    var root := new Component.Directory("Root");
    var documents := new Component.Directory("Documents");
    var pictures := new Component.Directory("Pictures");
    var file1 := new Component.File("Document1.txt", 100);
    var file2 := new Component.File("Picture1.jpg", 200);
    var file3 := new Component.File("Picture2.jpg", 300);
    documents.Add(file1);
    pictures.Add(file2);
    pictures.Add(file3);
    root.Add(documents);
    root.Add(pictures);
    assert Shapes(documents, DocumentsTree());
    assert Shapes(pictures, PicturesTree());
    assert Shapes(root, ExampleTree());
    ExampleTreeSize();
    ExampleTreeListing();
    rootSize := root.GetSize(ExampleTree());
    listing := root.Ls(ExampleTree());
  }
}
