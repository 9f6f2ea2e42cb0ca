/**
 * The flyweight forest: a factory that interns tree types under a string key,
 * and a forest of trees that all point at those shared types.
 *
 * The PHP table is a static array; here it is an explicit TreeFactory object
 * whose fields are the array's keys in insertion order (`order`) and its
 * key-to-value mapping (`treeTypes`).
 */
module Flyweight {

  /** The shared, intrinsic part of a tree. Its fields are fixed at construction. */
  class TreeType {
    const name: string
    const color: string
    const texture: string

    constructor (name: string, color: string, texture: string)
      ensures this.name == name && this.color == color && this.texture == texture
    {
      this.name := name;
      this.color := color;
      this.texture := texture;
    }
  }

  /**
   * The table key: the three fields written one after the other, with no
   * separator, each at the position the lengths before it give.
   */
  function MakeKey(name: string, color: string, texture: string): (k: string)
    ensures |k| == |name| + |color| + |texture|
    ensures k[..|name|] == name
    ensures k[|name|..|name| + |color|] == color
    ensures k[|name| + |color|..] == texture
  {
    name + color + texture
  }

  /** The key computed from a tree type's own fields. */
  function KeyOf(t: TreeType): string
  {
    MakeKey(t.name, t.color, t.texture)
  }

  /** The key tells triples apart only when the field lengths are known to agree. */
  lemma KeyInjectiveForEqualLengths(n1: string, c1: string, t1: string, n2: string, c2: string, t2: string)
    requires |n1| == |n2| && |c1| == |c2|
    requires MakeKey(n1, c1, t1) == MakeKey(n2, c2, t2)
    ensures n1 == n2 && c1 == c2 && t1 == t2
  {
  }

  /**
   * The key is not injective: moving the last character of a non-empty name to
   * the front of the color gives a different triple with the same key.
   */
  lemma KeyCollides(name: string, color: string, texture: string)
    requires |name| > 0
    ensures var name' := name[..|name| - 1];
      var color' := [name[|name| - 1]] + color;
      && (name', color', texture) != (name, color, texture)
      && MakeKey(name', color', texture) == MakeKey(name, color, texture)
  {
  }

  /** The collision of the concrete pair ("A", "B", "C") and ("AB", "", "C"). */
  lemma KeyCollisionExample()
    ensures ("A", "B", "C") != ("AB", "", "C")
    ensures MakeKey("A", "B", "C") == MakeKey("AB", "", "C") == "ABC"
  {
  }

  /** `t` is the entry stored under its own key in table `m`. */
  ghost predicate Registered(m: map<string, TreeType>, t: TreeType)
  {
    KeyOf(t) in m && m[KeyOf(t)] == t
  }

  /** The interning table (PHP: the static array of TreeFactory). */
  class TreeFactory {
    /** The array's keys, in the order they were first inserted. */
    var order: seq<string>
    var treeTypes: map<string, TreeType>

    /**
     * The keys are those of `treeTypes`, each once, and every entry sits under
     * the key computed from its own fields.
     */
    ghost predicate Valid()
      reads this
    {
      && (forall i, j :: 0 <= i < j < |order| ==> order[i] != order[j])
      && (forall i :: 0 <= i < |order| ==> order[i] in treeTypes)
      && (forall k :: k in treeTypes ==> k in order)
      && (forall k :: k in treeTypes ==> KeyOf(treeTypes[k]) == k)
    }

    constructor ()
      ensures Valid()
      ensures order == [] && treeTypes == map[]
    {
      order := [];
      treeTypes := map[];
    }

    /**
     * The scan of `find`: walks the table in insertion order and returns the
     * first entry whose recomputed key equals the key of the arguments.
     */
    method Find(name: string, color: string, texture: string) returns (found: TreeType?)
      requires Valid()
      ensures found != null <==> MakeKey(name, color, texture) in treeTypes
      ensures found != null ==> found == treeTypes[MakeKey(name, color, texture)]
    {
      var mustFindKey := MakeKey(name, color, texture);
      var i := 0;
      while i < |order|
        invariant 0 <= i <= |order|
        invariant forall j :: 0 <= j < i ==> order[j] != mustFindKey
      {
        var treeType := treeTypes[order[i]];
        var currentKey := MakeKey(treeType.name, treeType.color, treeType.texture);
        if mustFindKey == currentKey {
          return treeType;
        }
        i := i + 1;
      }
      return null;
    }

    /**
     * `add`: stores the tree type under its own key. A new key goes to the end of
     * the order; an existing key keeps its place and gets the new value.
     */
    method Add(treeType: TreeType)
      requires Valid()
      modifies this
      ensures Valid()
      ensures treeTypes == old(treeTypes)[KeyOf(treeType) := treeType]
      ensures order == if KeyOf(treeType) in old(treeTypes) then old(order) else old(order) + [KeyOf(treeType)]
    {
      var currentKey := MakeKey(treeType.name, treeType.color, treeType.texture);
      if currentKey !in treeTypes {
        order := order + [currentKey];
      }
      treeTypes := treeTypes[currentKey := treeType];
    }

    /**
     * `getTreeType`: the stored entry when the key is already present, and
     * otherwise a new tree type, stored under the key and returned.
     */
    method GetTreeType(name: string, color: string, texture: string) returns (treeType: TreeType)
      requires Valid()
      modifies this
      ensures Valid()
      ensures KeyOf(treeType) == MakeKey(name, color, texture)
      ensures Registered(treeTypes, treeType)
      ensures var k := MakeKey(name, color, texture);
        k in old(treeTypes) ==>
          && treeType == old(treeTypes)[k]
          && treeTypes == old(treeTypes)
          && order == old(order)
      ensures var k := MakeKey(name, color, texture);
        k !in old(treeTypes) ==>
          && fresh(treeType)
          && treeType.name == name && treeType.color == color && treeType.texture == texture
          && treeTypes == old(treeTypes)[k := treeType]
          && order == old(order) + [k]
      ensures forall k :: k in old(treeTypes) ==> k in treeTypes && treeTypes[k] == old(treeTypes)[k]
      ensures |treeTypes| <= |old(treeTypes)| + 1
    {
      var existTreeType := Find(name, color, texture);
      if existTreeType != null {
        return existTreeType;
      }
      treeType := new TreeType(name, color, texture);
      Add(treeType);
    }
  }

  /** Entries under different keys are different objects. */
  lemma DistinctKeysDistinctObjects(factory: TreeFactory, k1: string, k2: string)
    requires factory.Valid()
    requires k1 in factory.treeTypes && k2 in factory.treeTypes && k1 != k2
    ensures factory.treeTypes[k1] != factory.treeTypes[k2]
  {
  }

  /** A tree: its own position and a shared tree type. */
  datatype Tree = Tree(x: int, y: int, treeType: TreeType)

  /** The client code: an ordered list of trees, all of whose types come from one factory. */
  class Forest {
    const factory: TreeFactory
    var trees: seq<Tree>

    /** Every tree points at the entry its factory holds under that type's key. */
    ghost predicate Valid()
      reads this, factory
    {
      && factory.Valid()
      && forall i :: 0 <= i < |trees| ==> Registered(factory.treeTypes, trees[i].treeType)
    }

    constructor (factory: TreeFactory)
      requires factory.Valid()
      ensures Valid()
      ensures this.factory == factory && trees == []
    {
      this.factory := factory;
      trees := [];
    }

    /**
     * `plantTree`: appends one tree at the end with the given position and the
     * factory's tree type for the triple; earlier trees stay as they were.
     */
    method PlantTree(x: int, y: int, name: string, color: string, texture: string)
      requires Valid()
      modifies this, factory
      ensures Valid()
      ensures var k := MakeKey(name, color, texture);
        && k in factory.treeTypes
        && trees == old(trees) + [Tree(x, y, factory.treeTypes[k])]
      ensures var k := MakeKey(name, color, texture);
        k in old(factory.treeTypes) ==>
          && factory.treeTypes == old(factory.treeTypes)
          && factory.order == old(factory.order)
      ensures var k := MakeKey(name, color, texture);
        k !in old(factory.treeTypes) ==>
          && factory.treeTypes == old(factory.treeTypes)[k := factory.treeTypes[k]]
          && factory.order == old(factory.order) + [k]
          && factory.treeTypes[k].name == name
          && factory.treeTypes[k].color == color
          && factory.treeTypes[k].texture == texture
    {
      var treeType := factory.GetTreeType(name, color, texture);
      var tree := Tree(x, y, treeType);
      trees := trees + [tree];
    }

    function GetTrees(): seq<Tree>
      reads this
    {
      trees
    }
  }

  /**
   * The demonstration: five oaks planted at five positions share one tree type,
   * and the table holds exactly one entry.
   */
  method PlantFiveOaks() returns (forest: Forest)
    ensures |forest.trees| == 5
    ensures forall i :: 0 <= i < 5 ==> forest.trees[i].treeType == forest.trees[0].treeType
    ensures forest.trees[0].treeType.name == "Дуб"
    ensures [forest.trees[0].x, forest.trees[1].x, forest.trees[2].x, forest.trees[3].x, forest.trees[4].x] == [10, 3, 7, 1, 2]
    ensures [forest.trees[0].y, forest.trees[1].y, forest.trees[2].y, forest.trees[3].y, forest.trees[4].y] == [20, 25, 50, 30, 37]
    ensures |forest.factory.treeTypes| == 1
  {
    var factory := new TreeFactory();
    forest := new Forest(factory);
    forest.PlantTree(10, 20, "Дуб", "Коричневый", "oak.jpg");
    forest.PlantTree(3, 25, "Дуб", "Коричневый", "oak.jpg");
    forest.PlantTree(7, 50, "Дуб", "Коричневый", "oak.jpg");
    forest.PlantTree(1, 30, "Дуб", "Коричневый", "oak.jpg");
    forest.PlantTree(2, 37, "Дуб", "Коричневый", "oak.jpg");
  }

  /**
   * The collision in the factory: asking for ("AB", "", "C") after ("A", "B", "C")
   * returns the first object, whose fields are still "A", "B" and "C".
   */
  method CollidingTriplesShareOneType() returns (first: TreeType, second: TreeType)
    ensures first == second
    ensures second.name == "A" && second.color == "B" && second.texture == "C"
  {
    var factory := new TreeFactory();
    first := factory.GetTreeType("A", "B", "C");
    second := factory.GetTreeType("AB", "", "C");
  }
}
