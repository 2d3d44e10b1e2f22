/**
 * The building-object record and its recursive validation predicates
 * (src/org/opensourcebim/ifccollection/MpgObjectImpl.java), together with the
 * part of the object store those predicates use.
 */
module MpgObjects {

  import opened Wrappers
  import opened Doubles
  import MpgElements

  /** One listed material of an object: its GUID, name and the source that listed it. */
  datatype MaterialSource = MaterialSource(guid: string, name: string, source: string)

  /** One layer of a layered object; the material name may be missing (null). */
  datatype MpgLayer = MpgLayer(materialName: Option<string>)

  /** An entry of an object's free-form property bag. */
  datatype PropertyValue = PropertyValue(repr: string)

  // ---------------------------------------------------------------------------
  // Type-name normalisation
  // ---------------------------------------------------------------------------

  /** The single characters that Java's `$` accepts as a final line terminator. */
  predicate IsLineTerminatorChar(c: char) {
    c == '\n' || c == '\r' || c == '\U{85}' || c == '\U{2028}' || c == '\U{2029}'
  }

  /**
   * `s.replaceAll("Impl$", "")`.  Without the MULTILINE flag `$` matches at the
   * end of the input and also just before a line terminator that ends the
   * input, so an "Impl" followed by such a terminator is removed as well.
   */
  function StripImplSuffix(s: string): (r: string)
    ensures r == s || RemovesImplAt(s, r, |s| - 4) || RemovesImplAt(s, r, |s| - 5) || RemovesImplAt(s, r, |s| - 6)
    ensures |s| >= 4 && s[|s| - 4..] == "Impl" ==> r + "Impl" == s
    ensures forall j :: ImplBeforeEndAt(s, j) ==> RemovesImplAt(s, r, j)
  {
    var n := |s|;
    assert forall j :: ImplBeforeEndAt(s, j) ==> ImplEndCase(s, j) by {
      forall j | ImplBeforeEndAt(s, j) {
        ImplBeforeEndCases(s, j);
      }
    }
    if n >= 4 && s[n - 4..] == "Impl" then s[..n - 4]
    else if n >= 6 && s[n - 2..] == "\r\n" && s[n - 6..n - 2] == "Impl" then s[..n - 6] + "\r\n"
    else if n >= 5 && IsLineTerminatorChar(s[n - 1]) && s[n - 5..n - 1] == "Impl" then s[..n - 5] + [s[n - 1]]
    else s
  }

  /** `s.replaceAll("^Ifc", "")`: `^` matches only at the start of the input. */
  function StripIfcPrefix(s: string): (r: string)
    ensures |s| >= 3 && s[..3] == "Ifc" ==> "Ifc" + r == s
    ensures !(|s| >= 3 && s[..3] == "Ifc") ==> r == s
  {
    if |s| >= 3 && s[..3] == "Ifc" then s[3..] else s
  }

  /** The constructor's normalisation: first the "Impl" suffix, then the "Ifc" prefix. */
  function NormaliseType(t: string): (r: string)
    ensures |r| <= |t|
    ensures StripImplSuffix(t) == t && !(|t| >= 3 && t[..3] == "Ifc") ==> r == t
  {
    StripIfcPrefix(StripImplSuffix(t))
  }

  /** The four characters of s at position j are "Impl", and only a final line ending follows them. */
  predicate ImplBeforeEndAt(s: string, j: int) {
    0 <= j && j + 4 <= |s| && s[j..j + 4] == "Impl" && IsFinalTerminator(s[j + 4..])
  }

  /**
   * Where an "Impl" before a final line ending can sit: at the very end, before
   * "\r\n", or before one terminator character, and then the earlier
   * alternatives do not hold.
   */
  predicate ImplEndCase(s: string, j: int)
    requires ImplBeforeEndAt(s, j)
  {
    var n := |s|;
    if n >= 4 && s[n - 4..] == "Impl" then j == n - 4
    else if n >= 6 && s[n - 2..] == "\r\n" && s[n - 6..n - 2] == "Impl" then j == n - 6
    else n >= 5 && IsLineTerminatorChar(s[n - 1]) && s[n - 5..n - 1] == "Impl" && j == n - 5
  }

  lemma ImplBeforeEndCases(s: string, j: int)
    requires ImplBeforeEndAt(s, j)
    ensures ImplEndCase(s, j)
  {
    var n := |s|;
    var t := s[j + 4..];
    if t == "" {
      assert j == n - 4;
    } else if t == "\r\n" {
      assert j == n - 6;
      assert s[n - 1] == '\n' by { assert s[n - 1] == t[1]; }
      assert s[n - 2..] == "\r\n";
      assert s[n - 6..n - 2] == s[j..j + 4];
    } else {
      assert j == n - 5;
      assert s[n - 1] == t[0];
      assert s[n - 1] != 'l';
      assert s[n - 2] == 'l' by { assert s[n - 2] == s[j + 3]; }
      assert s[n - 5..n - 1] == s[j..j + 4];
    }
  }

  /** r is s with the "Impl" at position j, followed only by a final line ending, removed. */
  predicate RemovesImplAt(s: string, r: string, j: int) {
    ImplBeforeEndAt(s, j) && r == s[..j] + s[j + 4..]
  }

  /** The line endings Java's `$` looks past (the empty one included). */
  predicate IsFinalTerminator(t: string) {
    t == "" || t == "\r\n" || (|t| == 1 && IsLineTerminatorChar(t[0]))
  }

  /** An implementation class name "Ifc" + x + "Impl" normalises to x, keeping a final line ending. */
  lemma NormaliseDecoratedName(x: string, t: string)
    requires IsFinalTerminator(t)
    ensures NormaliseType("Ifc" + x + "Impl" + t) == x + t
  {
    var head := "Ifc" + x;
    var decorated := head + "Impl";
    var s := decorated + t;
    var n := |s|;
    var k := |head|;
    assert n == k + 4 + |t|;
    assert s[k..k + 4] == "Impl";
    assert s[..k] == head;
    assert s[k + 4..] == t;
    assert s[k + 3] == 'l';
    var stripped := head + t;
    if t == "" {
      assert s[n - 4..] == "Impl";
      assert s[..n - 4] == stripped;
    } else if t == "\r\n" {
      assert s[n - 4..] != "Impl" by { assert s[n - 1] == t[1]; }
      assert s[n - 2..] == "\r\n" && s[n - 6..n - 2] == "Impl";
      assert s[..n - 6] + "\r\n" == stripped;
    } else {
      assert s[n - 4..] != "Impl" by { assert s[n - 1] == t[0]; }
      assert s[n - 2..] != "\r\n" by { assert s[n - 2] == 'l'; }
      assert s[n - 5..n - 1] == "Impl";
      assert s[..n - 5] + [s[n - 1]] == stripped;
    }
    assert StripImplSuffix(s) == stripped;
    assert stripped[..3] == "Ifc" && stripped[3..] == x + t;
    assert "Ifc" + x + "Impl" + t == s;
  }

  lemma NormaliseExample()
    ensures NormaliseType("IfcWallImpl") == "Wall"
    ensures NormaliseType("IfcWallImpl\n") == "Wall\n"
  {
    NormaliseDecoratedName("Wall", "");
    assert "Ifc" + "Wall" + "Impl" + "" == "IfcWallImpl";
    NormaliseDecoratedName("Wall", "\n");
    assert "Ifc" + "Wall" + "Impl" + "\n" == "IfcWallImpl\n";
  }

  // ---------------------------------------------------------------------------
  // Pure helpers over the listed materials and the layers
  // ---------------------------------------------------------------------------

  /**
   * getMaterialNamesBySource: the names of the listed materials, in list order,
   * of all of them (no source, Java's null) or of those listed by `source`.
   */
  function NamesBySource(ms: seq<MaterialSource>, source: Option<string>): (names: seq<string>)
    ensures |names| <= |ms|
    ensures source.None? ==> |names| == |ms| && forall i :: 0 <= i < |ms| ==> names[i] == ms[i].name
    ensures forall n :: n in names ==>
      exists m :: m in ms && m.name == n && (source.None? || m.source == source.value)
  {
    if ms == [] then []
    else
      var head := if source.None? || ms[0].source == source.value then [ms[0].name] else [];
      head + NamesBySource(ms[1..], source)
  }

  /** The filter keeps the list order: the names of a concatenation are the concatenated names. */
  lemma {:induction false} NamesBySourceAppend(a: seq<MaterialSource>, b: seq<MaterialSource>, source: Option<string>)
    ensures NamesBySource(a + b, source) == NamesBySource(a, source) + NamesBySource(b, source)
  {
    if a == [] {
      assert a + b == b;
    } else {
      var head := if source.None? || a[0].source == source.value then [a[0].name] else [];
      assert (a + b)[0] == a[0] && (a + b)[1..] == a[1..] + b;
      assert NamesBySource(a + b, source) == head + NamesBySource(a[1..] + b, source);
      assert NamesBySource(a, source) == head + NamesBySource(a[1..], source);
      NamesBySourceAppend(a[1..], b, source);
      ConcatAssoc(head, NamesBySource(a[1..], source), NamesBySource(b, source));
    }
  }

  lemma ConcatAssoc<T>(x: seq<T>, y: seq<T>, z: seq<T>)
    ensures x + (y + z) == (x + y) + z
  {
  }

  /** Every listed material with a matching source contributes its name. */
  lemma {:induction false} NamesBySourceComplete(ms: seq<MaterialSource>, source: Option<string>, i: nat)
    requires i < |ms|
    requires source.None? || ms[i].source == source.value
    ensures ms[i].name in NamesBySource(ms, source)
  {
    if i > 0 {
      NamesBySourceComplete(ms[1..], source, i - 1);
    }
  }

  predicate HasRepeat<T(==)>(s: seq<T>) {
    exists i, j :: 0 <= i < j < |s| && s[i] == s[j]
  }

  /** A list has a repeated entry exactly when its set of entries is smaller than the list. */
  lemma {:induction false} DistinctCount<T>(s: seq<T>)
    ensures |set x | x in s| <= |s|
    ensures |set x | x in s| < |s| <==> HasRepeat(s)
  {
    if s == [] {
      assert (set x | x in s) == {};
    } else {
      var tail := s[1..];
      DistinctCount(tail);
      var st := set x | x in tail;
      assert (set x | x in s) == {s[0]} + st;
      if s[0] in tail {
        var j :| 0 <= j < |tail| && tail[j] == s[0];
        assert s[0] == s[j + 1];
        assert (set x | x in s) == st;
      } else {
        assert |(set x | x in s)| == |st| + 1;
        if HasRepeat(s) {
          var i, j :| 0 <= i < j < |s| && s[i] == s[j];
          assert s[j] == tail[j - 1];
          assert i > 0;
          assert tail[i - 1] == tail[j - 1];
        }
        if HasRepeat(tail) {
          var i, j :| 0 <= i < j < |tail| && tail[i] == tail[j];
          assert s[i + 1] == s[j + 1];
        }
      }
    }
  }

  predicate IsUnresolvedLayer(l: MpgLayer) {
    l.materialName == None || l.materialName == Some("")
  }

  /** The number of layers whose material name is empty or missing. */
  function CountUnresolved(layers: seq<MpgLayer>): (n: nat)
    ensures n <= |layers|
    ensures n > 0 <==> exists i :: 0 <= i < |layers| && IsUnresolvedLayer(layers[i])
  {
    if layers == [] then 0
    else
      (if IsUnresolvedLayer(layers[0]) then 1 else 0) + CountUnresolved(layers[1..])
  }

  // ---------------------------------------------------------------------------
  // The object store (only the part the objects use)
  // ---------------------------------------------------------------------------

  class MpgObjectStore {
    /** All building objects, keyed by global id. */
    var objects: map<string, MpgObjectImpl>
    /** The registered material names. */
    var materials: set<string>
    /** The elements that the resolution pipeline maps to product cards. */
    var elements: seq<MpgElements.MpgElement>
    /** A rank per global id that strictly decreases from a parent to its children. */
    ghost var rank: map<string, nat>

    constructor ()
      ensures objects == map[] && materials == {} && elements == [] && rank == map[]
    {
      objects := map[];
      materials := {};
      elements := [];
      rank := map[];
    }

    /** The parent relation of the stored objects has no cycle: `rank` witnesses it. */
    ghost predicate Acyclic()
      reads this, objects.Values
    {
      forall c :: c in objects.Values && c.parentId.Some? ==>
        c.globalId in rank && c.parentId.value in rank && rank[c.globalId] < rank[c.parentId.value]
    }

    ghost function Rank(id: string): nat
      reads this
    {
      if id in rank then rank[id] + 1 else 0
    }

    /** getChildren: the stored objects whose parent id is `id`. */
    function Children(id: string): (cs: set<MpgObjectImpl>)
      reads this, objects.Values
      ensures cs <= objects.Values
    {
      set c | c in objects.Values && c.parentId == Some(id)
    }

    /** addMaterial: registering a name twice keeps one entry. */
    method AddMaterial(name: string)
      modifies this`materials
      ensures materials == old(materials) + {name}
    {
      materials := materials + {name};
    }
  }

  // ---------------------------------------------------------------------------
  // The building object
  // ---------------------------------------------------------------------------

  class MpgObjectImpl {
    const objectId: int
    var globalId: string
    var objectName: string
    var layers: seq<MpgLayer>
    var objectType: Option<string>
    var parentId: Option<string>
    var properties: map<string, PropertyValue>
    var listedMaterials: seq<MaterialSource>
    var volume: Dbl

    constructor (objectId: int, globalId: string, objectName: Option<string>, objectType: Option<string>,
                 parentId: Option<string>)
      ensures this.objectId == objectId && this.globalId == globalId && this.parentId == parentId
      ensures this.objectName == objectName.GetOr("undefined name")
      ensures this.objectType == if objectType.Some? then Some(NormaliseType(objectType.value)) else None
      ensures layers == [] && listedMaterials == [] && properties == map[]
      ensures volume == Val(0.0)
    {
      this.objectId := objectId;
      this.globalId := globalId;
      this.objectName := objectName.GetOr("undefined name");
      this.objectType := if objectType.Some? then Some(NormaliseType(objectType.value)) else None;
      this.parentId := parentId;
      layers := [];
      properties := map[];
      listedMaterials := [];
      volume := Val(0.0);
    }

    method AddLayer(layer: MpgLayer)
      modifies this`layers
      ensures layers == old(layers) + [layer]
    {
      layers := layers + [layer];
    }

    /** setObjectType: a null type is stored as "undefined type". */
    method SetObjectType(t: Option<string>)
      modifies this`objectType
      ensures objectType == Some(t.GetOr("undefined type"))
    {
      objectType := Some(t.GetOr("undefined type"));
    }

    method SetGlobalId(id: string)
      modifies this`globalId
      ensures globalId == id
    {
      globalId := id;
    }

    method SetVolume(value: Dbl)
      modifies this`volume
      ensures volume == value
    {
      volume := value;
    }

    method SetParentId(value: Option<string>)
      modifies this`parentId
      ensures parentId == value
    {
      parentId := value;
    }

    method AddProperty(name: string, value: PropertyValue)
      modifies this`properties
      ensures properties == old(properties)[name := value]
    {
      properties := properties[name := value];
    }

    /**
     * addMaterialSource: one more listed material at the end, and its name
     * registered with the store; the layers and properties stay as they are.
     */
    method AddMaterialSource(store: MpgObjectStore, materialName: string, materialGuid: string, source: string)
      modifies this`listedMaterials, store`materials
      ensures listedMaterials == old(listedMaterials) + [MaterialSource(materialGuid, materialName, source)]
      ensures store.materials == old(store.materials) + {materialName}
      ensures GetMaterialNamesBySource(None) == old(GetMaterialNamesBySource(None)) + [materialName]
    {
      ghost var before := listedMaterials;
      listedMaterials := listedMaterials + [MaterialSource(materialGuid, materialName, source)];
      store.AddMaterial(materialName);
      NamesBySourceAppend(before, [MaterialSource(materialGuid, materialName, source)], None);
    }

    function GetMaterialNamesBySource(source: Option<string>): (names: seq<string>)
      reads this
      ensures |names| <= |listedMaterials|
      ensures source.None? ==> |names| == |listedMaterials|
      ensures source.None? ==> forall i :: 0 <= i < |names| ==> names[i] == listedMaterials[i].name
      ensures forall n :: n in names ==>
        exists m :: m in listedMaterials && m.name == n && (source.None? || m.source == source.value)
    {
      NamesBySource(listedMaterials, source)
    }

    /** hasDuplicateMaterialNames: true iff some listed entry occurs twice. */
    function HasDuplicateMaterialNames(): (r: bool)
      reads this
      ensures r <==> HasRepeat(listedMaterials)
    {
      DistinctCount(listedMaterials);
      |set m | m in listedMaterials| < |listedMaterials|
    }

    // The four own checks, each the part of a validation predicate that looks
    // at this object alone.

    predicate LacksMaterialInformation()
      reads this
    {
      |layers| + |GetMaterialNamesBySource(None)| == 0
    }

    predicate VolumeIsZero()
      reads this
    {
      NumEq(volume, Val(0.0))
    }

    predicate OwnRedundantMaterials()
      reads this
    {
      (|layers| == 0 && |GetMaterialNamesBySource(None)| > 1) || HasDuplicateMaterialNames()
    }

    predicate OwnUndefinedLayers()
      reads this
    {
      |layers| > 0 && CountUnresolved(layers) > 0
    }

    /**
     * hasUndefinedMaterials.  A childless object answers its own check; an
     * object with children ignores its own check and answers whether
     * includeChildren is set and some child has undefined materials.
     */
    function HasUndefinedMaterials(store: MpgObjectStore, includeChildren: bool): (r: bool)
      reads this, store, store.objects.Values
      requires store.Acyclic()
      ensures store.Children(globalId) == {} ==> (r <==> |layers| == 0 && |listedMaterials| == 0)
      ensures store.Children(globalId) != {} && !includeChildren ==> !r
      decreases store.Rank(globalId)
    {
      var thisIsUndefined := LacksMaterialInformation();
      var hasChildren := store.Children(globalId) != {};
      var childrenAreUndefined := includeChildren &&
        exists c :: c in store.Children(globalId) && c.HasUndefinedMaterials(store, includeChildren);
      if thisIsUndefined && !hasChildren then thisIsUndefined else childrenAreUndefined
    }

    /** hasUndefinedVolume: the same combination with "volume == 0" as own check. */
    function HasUndefinedVolume(store: MpgObjectStore, includeChildren: bool): (r: bool)
      reads this, store, store.objects.Values
      requires store.Acyclic()
      ensures store.Children(globalId) == {} ==> (r <==> VolumeIsZero())
      ensures store.Children(globalId) != {} && !includeChildren ==> !r
      decreases store.Rank(globalId)
    {
      var ownCheck := VolumeIsZero();
      var hasChildren := store.Children(globalId) != {};
      var childCheck := includeChildren &&
        exists c :: c in store.Children(globalId) && c.HasUndefinedVolume(store, includeChildren);
      if ownCheck && !hasChildren then true else childCheck
    }

    /** hasRedundantMaterials: own check, or (with includeChildren) a redundant child. */
    function HasRedundantMaterials(store: MpgObjectStore, includeChildren: bool): (r: bool)
      reads this, store, store.objects.Values
      requires store.Acyclic()
      ensures !includeChildren ==> (r <==> (|layers| == 0 && |listedMaterials| > 1) || HasRepeat(listedMaterials))
      ensures OwnRedundantMaterials() ==> r
      decreases store.Rank(globalId)
    {
      var ownCheck := OwnRedundantMaterials();
      var childCheck := includeChildren &&
        exists c :: c in store.Children(globalId) && c.HasRedundantMaterials(store, includeChildren);
      ownCheck || childCheck
    }

    /** hasUndefinedLayers: own check, or (with includeChildren) a child with undefined layers. */
    function HasUndefinedLayers(store: MpgObjectStore, includeChildren: bool): (r: bool)
      reads this, store, store.objects.Values
      requires store.Acyclic()
      ensures !includeChildren ==> (r <==> exists i :: 0 <= i < |layers| && IsUnresolvedLayer(layers[i]))
      ensures OwnUndefinedLayers() ==> r
      decreases store.Rank(globalId)
    {
      var ownCheck := OwnUndefinedLayers();
      var childCheck := includeChildren &&
        exists c :: c in store.Children(globalId) && c.HasUndefinedLayers(store, includeChildren);
      ownCheck || childCheck
    }
  }

  // ---------------------------------------------------------------------------
  // What the recursive predicates mean for a whole subtree
  // ---------------------------------------------------------------------------

  /** p is a downward chain of stored objects: p[0] is a child of `root`, each next one a child of the previous. */
  ghost predicate IsDescentPath(store: MpgObjectStore, root: string, p: seq<MpgObjectImpl>)
    reads store, store.objects.Values
  {
    && |p| > 0
    && (forall i :: 0 <= i < |p| ==> p[i] in store.objects.Values)
    && p[0] in store.Children(root)
    && (forall i :: 0 <= i < |p| - 1 ==> p[i + 1] in store.Children(p[i].globalId))
  }

  lemma PathCons(store: MpgObjectStore, root: string, c: MpgObjectImpl, q: seq<MpgObjectImpl>)
    requires c in store.Children(root) && IsDescentPath(store, c.globalId, q)
    ensures IsDescentPath(store, root, [c] + q) && ([c] + q)[|q|] == q[|q| - 1]
  {
    var p := [c] + q;
    forall i | 0 <= i < |p| - 1
      ensures p[i + 1] in store.Children(p[i].globalId)
    {
      if i > 0 {
        assert p[i] == q[i - 1] && p[i + 1] == q[i];
      }
    }
  }

  lemma PathTail(store: MpgObjectStore, root: string, p: seq<MpgObjectImpl>)
    requires IsDescentPath(store, root, p) && |p| > 1
    ensures IsDescentPath(store, p[0].globalId, p[1..]) && p[1..][|p| - 2] == p[|p| - 1]
  {
    var q := p[1..];
    forall i | 0 <= i < |q| - 1
      ensures q[i + 1] in store.Children(q[i].globalId)
    {
      assert q[i] == p[i + 1] && q[i + 1] == p[i + 2];
    }
  }

  /**
   * With includeChildren set, an object has redundant materials iff it or
   * some object below it fails the own check.
   */
  lemma {:induction false} RedundantMaterialsInSubtree(store: MpgObjectStore, o: MpgObjectImpl)
    requires store.Acyclic()
    ensures o.HasRedundantMaterials(store, true) <==>
      o.OwnRedundantMaterials() ||
      exists p: seq<MpgObjectImpl> :: IsDescentPath(store, o.globalId, p) && p[|p| - 1].OwnRedundantMaterials()
    decreases store.Rank(o.globalId)
  {
    if o.HasRedundantMaterials(store, true) && !o.OwnRedundantMaterials() {
      RedundantFound(store, o);
    }
    if p: seq<MpgObjectImpl> :| IsDescentPath(store, o.globalId, p) && p[|p| - 1].OwnRedundantMaterials() {
      var c := p[0];
      if |p| > 1 {
        PathTail(store, o.globalId, p);
        RedundantMaterialsInSubtree(store, c);
      }
      assert c in store.Children(o.globalId) && c.HasRedundantMaterials(store, true);
    }
  }

  lemma {:induction false} RedundantFound(store: MpgObjectStore, o: MpgObjectImpl)
    requires store.Acyclic()
    requires o.HasRedundantMaterials(store, true) && !o.OwnRedundantMaterials()
    ensures exists p: seq<MpgObjectImpl> :: IsDescentPath(store, o.globalId, p) && p[|p| - 1].OwnRedundantMaterials()
    decreases store.Rank(o.globalId), 0
  {
    var c :| c in store.Children(o.globalId) && c.HasRedundantMaterials(store, true);
    RedundantMaterialsInSubtree(store, c);
    if c.OwnRedundantMaterials() {
      assert IsDescentPath(store, o.globalId, [c]);
    } else {
      var q: seq<MpgObjectImpl> :| IsDescentPath(store, c.globalId, q) && q[|q| - 1].OwnRedundantMaterials();
      PathCons(store, o.globalId, c, q);
    }
  }

  /**
   * With includeChildren set, an object has undefined layers iff it or some
   * object below it has a layer without a material name.
   */
  lemma {:induction false} UndefinedLayersInSubtree(store: MpgObjectStore, o: MpgObjectImpl)
    requires store.Acyclic()
    ensures o.HasUndefinedLayers(store, true) <==>
      o.OwnUndefinedLayers() ||
      exists p: seq<MpgObjectImpl> :: IsDescentPath(store, o.globalId, p) && p[|p| - 1].OwnUndefinedLayers()
    decreases store.Rank(o.globalId)
  {
    if o.HasUndefinedLayers(store, true) && !o.OwnUndefinedLayers() {
      var c :| c in store.Children(o.globalId) && c.HasUndefinedLayers(store, true);
      UndefinedLayersInSubtree(store, c);
      if c.OwnUndefinedLayers() {
        assert IsDescentPath(store, o.globalId, [c]);
      } else {
        var q: seq<MpgObjectImpl> :| IsDescentPath(store, c.globalId, q) && q[|q| - 1].OwnUndefinedLayers();
        PathCons(store, o.globalId, c, q);
      }
    }
    if p: seq<MpgObjectImpl> :| IsDescentPath(store, o.globalId, p) && p[|p| - 1].OwnUndefinedLayers() {
      var c := p[0];
      if |p| > 1 {
        PathTail(store, o.globalId, p);
        UndefinedLayersInSubtree(store, c);
      }
      assert c in store.Children(o.globalId) && c.HasUndefinedLayers(store, true);
    }
  }

  /**
   * With includeChildren set, an object has undefined materials iff some
   * childless object of its subtree (itself, if it has no children) has
   * neither layers nor listed materials: the own check of an object with
   * children never counts.
   */
  lemma {:induction false} UndefinedMaterialsInSubtree(store: MpgObjectStore, o: MpgObjectImpl)
    requires store.Acyclic()
    ensures o.HasUndefinedMaterials(store, true) <==>
      (store.Children(o.globalId) == {} && o.LacksMaterialInformation()) ||
      exists p: seq<MpgObjectImpl> :: IsDescentPath(store, o.globalId, p) &&
        store.Children(p[|p| - 1].globalId) == {} && p[|p| - 1].LacksMaterialInformation()
    decreases store.Rank(o.globalId)
  {
    if store.Children(o.globalId) != {} && o.HasUndefinedMaterials(store, true) {
      var c :| c in store.Children(o.globalId) && c.HasUndefinedMaterials(store, true);
      UndefinedMaterialsInSubtree(store, c);
      if store.Children(c.globalId) == {} && c.LacksMaterialInformation() {
        assert IsDescentPath(store, o.globalId, [c]);
      } else {
        var q: seq<MpgObjectImpl> :| IsDescentPath(store, c.globalId, q) &&
          store.Children(q[|q| - 1].globalId) == {} && q[|q| - 1].LacksMaterialInformation();
        PathCons(store, o.globalId, c, q);
      }
    }
    if p: seq<MpgObjectImpl> :| (IsDescentPath(store, o.globalId, p) &&
        store.Children(p[|p| - 1].globalId) == {} && p[|p| - 1].LacksMaterialInformation()) {
      var c := p[0];
      if |p| > 1 {
        PathTail(store, o.globalId, p);
        UndefinedMaterialsInSubtree(store, c);
      }
      assert c in store.Children(o.globalId) && c.HasUndefinedMaterials(store, true);
    }
  }

  /**
   * With includeChildren set, an object has undefined volume iff some
   * childless object of its subtree (itself, if it has no children) has
   * volume 0.
   */
  lemma {:induction false} UndefinedVolumeInSubtree(store: MpgObjectStore, o: MpgObjectImpl)
    requires store.Acyclic()
    ensures o.HasUndefinedVolume(store, true) <==>
      (store.Children(o.globalId) == {} && o.VolumeIsZero()) ||
      exists p: seq<MpgObjectImpl> :: IsDescentPath(store, o.globalId, p) &&
        store.Children(p[|p| - 1].globalId) == {} && p[|p| - 1].VolumeIsZero()
    decreases store.Rank(o.globalId)
  {
    if store.Children(o.globalId) != {} && o.HasUndefinedVolume(store, true) {
      var c :| c in store.Children(o.globalId) && c.HasUndefinedVolume(store, true);
      UndefinedVolumeInSubtree(store, c);
      if store.Children(c.globalId) == {} && c.VolumeIsZero() {
        assert IsDescentPath(store, o.globalId, [c]);
      } else {
        var q: seq<MpgObjectImpl> :| IsDescentPath(store, c.globalId, q) &&
          store.Children(q[|q| - 1].globalId) == {} && q[|q| - 1].VolumeIsZero();
        PathCons(store, o.globalId, c, q);
      }
    }
    if p: seq<MpgObjectImpl> :| (IsDescentPath(store, o.globalId, p) &&
        store.Children(p[|p| - 1].globalId) == {} && p[|p| - 1].VolumeIsZero()) {
      var c := p[0];
      if |p| > 1 {
        PathTail(store, o.globalId, p);
        UndefinedVolumeInSubtree(store, c);
      }
      assert c in store.Children(o.globalId) && c.HasUndefinedVolume(store, true);
    }
  }
}
