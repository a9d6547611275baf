/** The counting part of `Model::load` (src/resource/Model.cpp): how many
    patches a model file has and which mesh file names each patch hands to
    `ModelPatch::create`. The XML document is abstracted to the sequence of
    its `<modelPatch>` elements. */
module ModelLoading {
  import opened Common

  /** A `<modelPatch>` element: the text of its `<material>`, `<mesh>`,
      `<mesh1>` and `<mesh2>` children, for those that are present. */
  datatype PatchElement = PatchElement(
    material: Option<string>,
    mesh: Option<string>,
    mesh1: Option<string>,
    mesh2: Option<string>)

  /** The children `load` cannot do without. */
  predicate HasRequiredChildren(el: PatchElement)
  {
    el.material.Some? && el.mesh.Some?
  }

  /** `meshesCount`: one for `<mesh>`, one more for each optional mesh. */
  function PatchMeshCount(el: PatchElement): (n: nat)
    ensures 1 <= n <= 3
    ensures n == 1 <==> el.mesh1.None? && el.mesh2.None?
    ensures n == 3 <==> el.mesh1.Some? && el.mesh2.Some?
  {
    1 + (if el.mesh1.Some? then 1 else 0) + (if el.mesh2.Some? then 1 else 0)
  }

  function OptionalName(o: Option<string>): seq<string>
  {
    match o
    case Some(name) => [name]
    case None => []
  }

  /** The mesh file names as the code hands them to `create`: the first
      `meshesCount` slots of `meshesFnames`, where slot 1 holds `<mesh1>` and
      slot 2 holds `<mesh2>`, and a slot whose element is absent stays unset
      (the empty name). */
  function PatchMeshNamesAsWritten(el: PatchElement): (names: seq<string>)
    requires el.mesh.Some?
    ensures |names| == PatchMeshCount(el)
  {
    var slots := [el.mesh.value,
                  if el.mesh1.Some? then el.mesh1.value else "",
                  if el.mesh2.Some? then el.mesh2.value else ""];
    slots[..PatchMeshCount(el)]
  }

  /** A patch with `<mesh2>` but no `<mesh1>` hands an unset name to
      `create` in place of its second mesh, so `<mesh2>` is never loaded and
      the list differs from the present names unless `<mesh2>` is empty. */
  lemma AsWrittenDropsMesh2(el: PatchElement)
    requires el.mesh.Some? && el.mesh1.None? && el.mesh2.Some?
    ensures PatchMeshNamesAsWritten(el) == [el.mesh.value, ""]
    ensures el.mesh2.value != "" ==> PatchMeshNamesAsWritten(el) != PatchMeshNames(el)
  {
    assert PatchMeshNames(el)[1] == el.mesh2.value;
  }

  /** For instance `<mesh>lod0.mesh</mesh><mesh2>lod2.mesh</mesh2>`. */
  lemma AsWrittenDropsMesh2Example()
    ensures var el := PatchElement(Some("a.mtl"), Some("lod0.mesh"), None, Some("lod2.mesh"));
      && PatchMeshNamesAsWritten(el) == ["lod0.mesh", ""]
      && "lod2.mesh" !in PatchMeshNamesAsWritten(el)
  {
    var el := PatchElement(Some("a.mtl"), Some("lod0.mesh"), None, Some("lod2.mesh"));
    AsWrittenDropsMesh2(el);
  }

  /** The mesh file names of a patch: `<mesh>`, then `<mesh1>` and `<mesh2>`
      when present, with no gap. */
  function PatchMeshNames(el: PatchElement): (names: seq<string>)
    requires el.mesh.Some?
    ensures |names| == PatchMeshCount(el)
    ensures names[0] == el.mesh.value
    ensures el.mesh1.Some? ==> names[1] == el.mesh1.value
    ensures el.mesh2.Some? ==> names[|names| - 1] == el.mesh2.value
  {
    [el.mesh.value] + OptionalName(el.mesh1) + OptionalName(el.mesh2)
  }

  /** Every name `PatchMeshNames` lists comes from a mesh element that is
      present, and the code as written agrees with it except when `<mesh2>`
      is present without `<mesh1>`. */
  lemma PatchMeshNamesAgree(el: PatchElement)
    requires el.mesh.Some?
    ensures forall name :: name in PatchMeshNames(el) ==>
      Some(name) == el.mesh || Some(name) == el.mesh1 || Some(name) == el.mesh2
    ensures el.mesh1.Some? || el.mesh2.None? ==> PatchMeshNamesAsWritten(el) == PatchMeshNames(el)
  {
    var names := PatchMeshNames(el);
    forall name | name in names
      ensures Some(name) == el.mesh || Some(name) == el.mesh1 || Some(name) == el.mesh2
    {
      var i :| 0 <= i < |names| && names[i] == name;
      if i > 0 && el.mesh1.Some? && i == 1 {
      } else if i > 0 {
        assert names[i] == el.mesh2.value;
      }
    }
    if el.mesh1.Some? || el.mesh2.None? {
      var written := PatchMeshNamesAsWritten(el);
      assert forall i :: 0 <= i < |names| ==> written[i] == names[i];
    }
  }

  /** `names` is the mesh list of the patch `el`: its corrected names, one
      to three of them, and the code's own list whenever `el` has `<mesh1>`
      or lacks `<mesh2>`. */
  predicate NamesOfPatch(el: PatchElement, names: seq<string>)
  {
    && el.mesh.Some?
    && names == PatchMeshNames(el)
    && 1 <= |names| <= 3
    && (el.mesh1.Some? || el.mesh2.None? ==> names == PatchMeshNamesAsWritten(el))
  }

  /** The patch counting and per-patch mesh lists of `Model::load`. The
      first loop counts the `<modelPatch>` elements (a do-while, so at least
      one is counted once the first exists); the second walks them again and
      stops with an error at the first that lacks `<material>` or `<mesh>`.
      Each patch's names are the corrected `PatchMeshNames`; they are the
      code's own list except for a patch with `<mesh2>` but no `<mesh1>`. */
  method LoadPatchMeshNames(patches: seq<PatchElement>) returns (err: Error, meshNames: seq<seq<string>>)
    ensures err == NoError <==> |patches| > 0 && forall i :: 0 <= i < |patches| ==> HasRequiredChildren(patches[i])
    ensures err != NoError ==> err == Failed(UserData)
    ensures err == NoError ==> |meshNames| == |patches|
    ensures |meshNames| <= |patches|
    ensures forall i :: 0 <= i < |meshNames| ==> NamesOfPatch(patches[i], meshNames[i])
  {
    meshNames := [];
    if |patches| == 0 {
      // No first `<modelPatch>` child.
      return Failed(UserData), meshNames;
    }

    // Count
    var count := 0;
    var cursor := 0;
    count, cursor := count + 1, cursor + 1;
    while cursor < |patches|
      invariant 1 <= count == cursor <= |patches|
    {
      count, cursor := count + 1, cursor + 1;
    }
    if count < 1 {
      return Failed(UserData), meshNames;
    }

    // Create one patch per element
    var i := 0;
    while i < count
      invariant 0 <= i <= count
      invariant |meshNames| == i
      invariant forall j :: 0 <= j < i ==> HasRequiredChildren(patches[j])
      invariant forall j :: 0 <= j < i ==> NamesOfPatch(patches[j], meshNames[j])
    {
      var el := patches[i];
      if el.material.None? || el.mesh.None? {
        return Failed(UserData), meshNames;
      }
      var names := PatchMeshNames(el);
      PatchMeshNamesAgree(el);
      assert NamesOfPatch(el, names);
      meshNames := meshNames + [names];
      i := i + 1;
    }
    err := NoError;
  }
}
