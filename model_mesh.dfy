/**
 * src/components/three/ModelMesh.tsx: which mesh component renders a model
 * URL. The decision is returned as a value; the components themselves
 * (GlbMesh, STLMesh) are outside this model.
 */
module ModelMesh {
  import opened Wrappers
  import opened Strings

  /** The element ModelMesh renders, with the props it passes on. */
  datatype MeshChoice =
    | GlbMesh(url: string, color: Option<string>, scale: real, upright: bool)
    | StlMesh(url: string, color: Option<string>, scale: real)

  /** GLB branch: the lower-cased URL ends in `.glb` or `.gltf`. */
  predicate IsGlb(url: string) {
    EndsWith(ToLower(url), ".glb") || EndsWith(ToLower(url), ".gltf")
  }

  /** The Tako model is recognised by `tako` anywhere in the lower-cased URL. */
  predicate IsTako(url: string) {
    Contains(ToLower(url), "tako")
  }

  /** `ModelMesh({url, color, scale = 1})`. */
  function Dispatch(url: string, color: Option<string>, scale: real := 1.0): (r: MeshChoice)
    ensures r.GlbMesh? <==> IsGlb(url)
    ensures r.url == url && r.color == color
    ensures r.GlbMesh? ==> r.upright == IsTako(url)
    ensures r.GlbMesh? ==> r.scale == if IsTako(url) then scale * 0.8 else scale
    ensures r.StlMesh? ==> r.scale == scale
  {
    if IsGlb(url) then
      GlbMesh(url, color, if IsTako(url) then scale * 0.8 else scale, IsTako(url))
    else
      StlMesh(url, color, scale)
  }

  /** Without an explicit scale the STL branch renders at scale 1. */
  lemma DefaultScale(url: string, color: Option<string>)
    requires !IsGlb(url)
    ensures Dispatch(url, color) == StlMesh(url, color, 1.0)
  {
  }

  /**
   * Changing the case of letters in the URL changes nothing but the URL that
   * is passed on: the branch, the scale and `upright` stay the same.
   */
  lemma DispatchIgnoresCase(a: string, b: string, color: Option<string>, scale: real)
    requires SameUpToCase(a, b)
    ensures Dispatch(a, color, scale).GlbMesh? == Dispatch(b, color, scale).GlbMesh?
    ensures Dispatch(a, color, scale).scale == Dispatch(b, color, scale).scale
    ensures Dispatch(a, color, scale).GlbMesh? ==>
              Dispatch(a, color, scale).upright == Dispatch(b, color, scale).upright
  {
    SameUpToCaseLower(a, b);
  }

  /** In particular an all-capitals URL is dispatched like the original. */
  lemma DispatchUpperCase(url: string, color: Option<string>, scale: real)
    ensures Dispatch(ToUpper(url), color, scale).GlbMesh? == Dispatch(url, color, scale).GlbMesh?
    ensures Dispatch(ToUpper(url), color, scale).scale == Dispatch(url, color, scale).scale
  {
    UpperIsSameUpToCase(url);
    DispatchIgnoresCase(ToUpper(url), url, color, scale);
  }

  /** A `.stl` URL takes the STL branch, whether or not it mentions tako. */
  lemma StlIgnoresTako(url: string, color: Option<string>, scale: real)
    requires EndsWith(ToLower(url), ".stl")
    ensures Dispatch(url, color, scale) == StlMesh(url, color, scale)
  {
    var l := ToLower(url);
    EndsWithDistinct(l, ".stl", ".glb");
    EndsWithLastChar(l, ".stl");
    if EndsWith(l, ".gltf") {
      EndsWithLastChar(l, ".gltf");
      assert false;
    }
  }
}
