/**
 * The descriptor groups the orchestrator builds at start-up: one group per
 * descriptor-set layout, each holding the sets pushed into it, and the
 * descriptor pool budget those sets are allocated from.
 */
module Descriptors {
  import opened Vk

  datatype DescriptorType = CombinedImageSampler | StorageImage | UniformBuffer

  /** The scene and presentation resources a descriptor can point at. */
  datatype Resource =
    | CameraBuffer
    | LightingBuffer
    | EarthTexture(kind: nat)
    | EarthTransformation
    | CloudsTexture
    | CloudsTransformation
    | SkyboxTexture
    | SkyboxTransformation
    | MainColorImage
    | SwapChainImage(index: nat)

  /** One binding of a set layout: its descriptor type and the shader stages of each array element. */
  datatype Binding = Binding(kind: DescriptorType, stages: seq<Flags>)

  /** The contents written to one binding of a pushed set. */
  datatype Write = Write(kind: DescriptorType, resources: seq<Resource>)

  /** A descriptor-set group: its layout and the sets pushed into it, by index. */
  datatype Group = Group(layout: seq<Binding>, sets: seq<seq<Write>>)

  /** A pushed set fits a layout: one write per binding, of that binding's type and array size. */
  predicate Conforms(layout: seq<Binding>, writes: seq<Write>) {
    |writes| == |layout| &&
    forall b :: 0 <= b < |writes| ==>
      writes[b].kind == layout[b].kind && |writes[b].resources| == |layout[b].stages|
  }

  predicate GroupConforms(g: Group) {
    forall k :: 0 <= k < |g.sets| ==> Conforms(g.layout, g.sets[k])
  }

  /** The group indices (the `DESCRIPTOR_TYPE_*` enumeration). */
  const SCENE: nat := 0
  const EARTH: nat := 1
  const CLOUDS_AND_SKYBOX: nat := 2
  const TONE_SRC: nat := 3
  const TONE_DST: nat := 4
  const GROUP_COUNT: nat := 5

  /**
   * The Earth's four textures (`Earth::TextureType::COUNT`), which Scene.h
   * also declares as `Scene::TEXTURE_COUNT`, and Scene.h's `Scene::BUFFER_COUNT`.
   */
  const TEXTURE_COUNT: nat := 4
  const BUFFER_COUNT: nat := 2

  /** The uniform buffers pushed at start-up: camera, lighting, Earth, clouds and skybox. */
  const UNIFORM_COUNT: nat := 5

  function EarthTextures(): (r: seq<Resource>)
    ensures |r| == TEXTURE_COUNT && forall k :: 0 <= k < |r| ==> r[k] == EarthTexture(k)
  {
    [EarthTexture(0), EarthTexture(1), EarthTexture(2), EarthTexture(3)]
  }

  function Repeat(n: nat, f: Flags): (r: seq<Flags>)
    ensures |r| == n && forall k :: 0 <= k < n ==> r[k] == f
  {
    seq(n, k => f)
  }

  const SCENE_LAYOUT: seq<Binding> := [Binding(UniformBuffer, [SHADER_VERTEX, SHADER_FRAGMENT])]
  const EARTH_LAYOUT: seq<Binding> :=
    [Binding(CombinedImageSampler, Repeat(TEXTURE_COUNT, SHADER_FRAGMENT)), Binding(UniformBuffer, [SHADER_VERTEX])]
  const CLOUDS_AND_SKYBOX_LAYOUT: seq<Binding> :=
    [Binding(CombinedImageSampler, [SHADER_FRAGMENT]), Binding(UniformBuffer, [SHADER_VERTEX])]
  const TONE_LAYOUT: seq<Binding> := [Binding(StorageImage, [SHADER_COMPUTE])]

  const SCENE_SET: seq<Write> := [Write(UniformBuffer, [CameraBuffer, LightingBuffer])]
  const EARTH_SET: seq<Write> :=
    [Write(CombinedImageSampler, EarthTextures()), Write(UniformBuffer, [EarthTransformation])]
  const CLOUDS_SET: seq<Write> :=
    [Write(CombinedImageSampler, [CloudsTexture]), Write(UniformBuffer, [CloudsTransformation])]
  const SKYBOX_SET: seq<Write> :=
    [Write(CombinedImageSampler, [SkyboxTexture]), Write(UniformBuffer, [SkyboxTransformation])]
  const TONE_SRC_SET: seq<Write> := [Write(StorageImage, [MainColorImage])]

  /** The set pushed into the tone-destination group for swapchain image `i`. */
  function ToneDstSet(i: nat): seq<Write> {
    [Write(StorageImage, [SwapChainImage(i)])]
  }

  /** One tone-destination set per swapchain image, in image order. */
  function ToneDstSets(n: nat): (r: seq<seq<Write>>)
    ensures |r| == n && forall i :: 0 <= i < n ==> r[i] == ToneDstSet(i)
  {
    seq(n, i requires 0 <= i => ToneDstSet(i))
  }

  /** The groups after start-up with `n` swapchain images. */
  function InitialDescriptors(n: nat): (r: seq<Group>)
    ensures |r| == GROUP_COUNT
  {
    [ Group(SCENE_LAYOUT, [SCENE_SET]),
      Group(EARTH_LAYOUT, [EARTH_SET]),
      Group(CLOUDS_AND_SKYBOX_LAYOUT, [CLOUDS_SET, SKYBOX_SET]),
      Group(TONE_LAYOUT, [TONE_SRC_SET]),
      Group(TONE_LAYOUT, ToneDstSets(n)) ]
  }

  /**
   * Every set pushed at start-up fits its group's layout; the groups hold
   * 1, 1, 2, 1 and `n` sets; the clouds set comes before the skybox set; and
   * tone-destination set `i` holds exactly swapchain image `i`.
   */
  lemma InitialDescriptorsShape(n: nat)
    ensures forall g :: 0 <= g < GROUP_COUNT ==> GroupConforms(InitialDescriptors(n)[g])
    ensures |InitialDescriptors(n)[SCENE].sets| == 1 && |InitialDescriptors(n)[EARTH].sets| == 1
    ensures InitialDescriptors(n)[CLOUDS_AND_SKYBOX].sets == [CLOUDS_SET, SKYBOX_SET]
    ensures |InitialDescriptors(n)[TONE_SRC].sets| == 1 && |InitialDescriptors(n)[TONE_DST].sets| == n
    ensures forall i :: 0 <= i < n ==>
      InitialDescriptors(n)[TONE_DST].sets[i] == [Write(StorageImage, [SwapChainImage(i)])]
  {
    var d := InitialDescriptors(n);
    assert Conforms(EARTH_LAYOUT, EARTH_SET);
    assert forall k :: 0 <= k < n ==> Conforms(TONE_LAYOUT, d[TONE_DST].sets[k]);
  }

  /** The number of descriptors of type `t` that a list of writes uses. */
  function WritesDemand(writes: seq<Write>, t: DescriptorType): nat
    decreases |writes|
  {
    if writes == [] then 0
    else
      var last := writes[|writes| - 1];
      WritesDemand(writes[..|writes| - 1], t) + (if last.kind == t then |last.resources| else 0)
  }

  function SetsDemand(sets: seq<seq<Write>>, t: DescriptorType): nat
    decreases |sets|
  {
    if sets == [] then 0 else SetsDemand(sets[..|sets| - 1], t) + WritesDemand(sets[|sets| - 1], t)
  }

  function GroupsDemand(groups: seq<Group>, t: DescriptorType): nat
    decreases |groups|
  {
    if groups == [] then 0 else GroupsDemand(groups[..|groups| - 1], t) + SetsDemand(groups[|groups| - 1].sets, t)
  }

  function SetCount(groups: seq<Group>): nat
    decreases |groups|
  {
    if groups == [] then 0 else SetCount(groups[..|groups| - 1]) + |groups[|groups| - 1].sets|
  }

  /** A pool's per-type descriptor counts and its `maxSets`. */
  datatype PoolBudget = PoolBudget(samplers: nat, storageImages: nat, uniformBuffers: nat, maxSets: nat)

  /** Every descriptor and every set of `groups` can be allocated from a pool of `budget`. */
  predicate Fits(groups: seq<Group>, budget: PoolBudget) {
    GroupsDemand(groups, CombinedImageSampler) <= budget.samplers &&
    GroupsDemand(groups, StorageImage) <= budget.storageImages &&
    GroupsDemand(groups, UniformBuffer) <= budget.uniformBuffers &&
    SetCount(groups) <= budget.maxSets
  }

  /**
   * The pool sizes as the orchestrator declares them for `n` swapchain
   * images, given the scene's `TEXTURE_COUNT` and `BUFFER_COUNT`.
   */
  function DeclaredBudget(n: nat, textureCount: nat, bufferCount: nat): PoolBudget {
    PoolBudget(textureCount + 1, 1 + n, bufferCount + 0, GROUP_COUNT + 1 + n)
  }

  /** The pool sizes the start-up sets need: the sampler and uniform-buffer counts cover the skybox and per-model sets. */
  function PoolBudgetFor(n: nat): PoolBudget {
    PoolBudget(TEXTURE_COUNT + 2, 1 + n, UNIFORM_COUNT, GROUP_COUNT + 1 + n)
  }

  lemma {:induction false} ToneDstDemand(n: nat)
    ensures SetsDemand(ToneDstSets(n), StorageImage) == n
    ensures SetsDemand(ToneDstSets(n), CombinedImageSampler) == 0
    ensures SetsDemand(ToneDstSets(n), UniformBuffer) == 0
  {
    if n > 0 {
      ToneDstDemand(n - 1);
      assert ToneDstSets(n)[..n - 1] == ToneDstSets(n - 1);
      assert WritesDemand([Write(StorageImage, [SwapChainImage(n - 1)])][..0], StorageImage) == 0;
    }
  }

  lemma GroupsOfFive(d: seq<Group>, t: DescriptorType)
    requires |d| == 5
    ensures GroupsDemand(d, t) ==
            SetsDemand(d[0].sets, t) + SetsDemand(d[1].sets, t) + SetsDemand(d[2].sets, t) +
            SetsDemand(d[3].sets, t) + SetsDemand(d[4].sets, t)
    ensures SetCount(d) == |d[0].sets| + |d[1].sets| + |d[2].sets| + |d[3].sets| + |d[4].sets|
  {
    var d1, d2, d3, d4 := d[..1], d[..2], d[..3], d[..4];
    assert d1[..0] == [] && d2[..1] == d1 && d3[..2] == d2 && d4[..3] == d3 && d[..4] == d4;
    assert GroupsDemand(d1, t) == SetsDemand(d[0].sets, t) && SetCount(d1) == |d[0].sets|;
    assert GroupsDemand(d2, t) == GroupsDemand(d1, t) + SetsDemand(d[1].sets, t);
    assert GroupsDemand(d3, t) == GroupsDemand(d2, t) + SetsDemand(d[2].sets, t);
    assert GroupsDemand(d4, t) == GroupsDemand(d3, t) + SetsDemand(d[3].sets, t);
    assert SetCount(d2) == SetCount(d1) + |d[1].sets|;
    assert SetCount(d3) == SetCount(d2) + |d[2].sets|;
    assert SetCount(d4) == SetCount(d3) + |d[3].sets|;
  }

  lemma SetsOfTwo(x: seq<Write>, y: seq<Write>, t: DescriptorType)
    ensures SetsDemand([x], t) == WritesDemand(x, t)
    ensures SetsDemand([x, y], t) == WritesDemand(x, t) + WritesDemand(y, t)
  {
    assert [x, y][..1] == [x];
    assert [x][..0] == [];
  }

  lemma WritesOfTwo(u: Write, v: Write, t: DescriptorType)
    ensures WritesDemand([u], t) == (if u.kind == t then |u.resources| else 0)
    ensures WritesDemand([u, v], t) ==
            (if u.kind == t then |u.resources| else 0) + (if v.kind == t then |v.resources| else 0)
  {
    assert [u, v][..1] == [u];
    assert [u][..0] == [];
  }

  /**
   * What the start-up groups ask of the pool: TEXTURE_COUNT + 2 combined
   * image samplers, 1 + n storage images, UNIFORM_COUNT uniform buffers
   * and GROUP_COUNT + n sets.
   */
  lemma InitialDemand(n: nat)
    ensures GroupsDemand(InitialDescriptors(n), CombinedImageSampler) == TEXTURE_COUNT + 2
    ensures GroupsDemand(InitialDescriptors(n), StorageImage) == 1 + n
    ensures GroupsDemand(InitialDescriptors(n), UniformBuffer) == UNIFORM_COUNT
    ensures SetCount(InitialDescriptors(n)) == GROUP_COUNT + n
  {
    var d := InitialDescriptors(n);
    ToneDstDemand(n);
    forall t | true
      ensures GroupsDemand(d, t) ==
              WritesDemand(SCENE_SET, t) + WritesDemand(EARTH_SET, t) + WritesDemand(CLOUDS_SET, t) +
              WritesDemand(SKYBOX_SET, t) + WritesDemand(TONE_SRC_SET, t) + SetsDemand(ToneDstSets(n), t)
    {
      GroupsOfFive(d, t);
      SetsOfTwo(SCENE_SET, SCENE_SET, t);
      SetsOfTwo(EARTH_SET, EARTH_SET, t);
      SetsOfTwo(CLOUDS_SET, SKYBOX_SET, t);
      SetsOfTwo(TONE_SRC_SET, TONE_SRC_SET, t);
    }
    GroupsOfFive(d, StorageImage);
    forall t | true
      ensures WritesDemand(SCENE_SET, t) == (if t == UniformBuffer then 2 else 0)
      ensures WritesDemand(EARTH_SET, t) ==
              (if t == CombinedImageSampler then TEXTURE_COUNT else if t == UniformBuffer then 1 else 0)
      ensures WritesDemand(CLOUDS_SET, t) == (if t == StorageImage then 0 else 1)
      ensures WritesDemand(SKYBOX_SET, t) == (if t == StorageImage then 0 else 1)
      ensures WritesDemand(TONE_SRC_SET, t) == (if t == StorageImage then 1 else 0)
    {
      WritesOfTwo(SCENE_SET[0], SCENE_SET[0], t);
      WritesOfTwo(EARTH_SET[0], EARTH_SET[1], t);
      WritesOfTwo(CLOUDS_SET[0], CLOUDS_SET[1], t);
      WritesOfTwo(SKYBOX_SET[0], SKYBOX_SET[1], t);
      WritesOfTwo(TONE_SRC_SET[0], TONE_SRC_SET[0], t);
    }
  }

  /** The corrected budget holds every set and descriptor pushed at start-up. */
  lemma PoolBudgetForFits(n: nat)
    ensures Fits(InitialDescriptors(n), PoolBudgetFor(n))
  {
    InitialDemand(n);
  }

  /**
   * The declared budget holds the start-up sets exactly when the scene
   * counts more textures than the Earth has and at least the five uniform
   * buffers pushed at start-up.
   */
  lemma DeclaredBudgetFits(n: nat, textureCount: nat, bufferCount: nat)
    ensures Fits(InitialDescriptors(n), DeclaredBudget(n, textureCount, bufferCount)) <==>
            TEXTURE_COUNT < textureCount && UNIFORM_COUNT <= bufferCount
  {
    InitialDemand(n);
  }

  /**
   * With the counts Scene.h declares, the declared budget matches the
   * storage-image demand exactly and leaves one spare set, but is one
   * combined image sampler and three uniform buffers short of what the
   * start-up groups use, for every image count.
   */
  lemma DeclaredBudgetShortfall(n: nat)
    ensures GroupsDemand(InitialDescriptors(n), StorageImage) ==
            DeclaredBudget(n, TEXTURE_COUNT, BUFFER_COUNT).storageImages
    ensures SetCount(InitialDescriptors(n)) + 1 == DeclaredBudget(n, TEXTURE_COUNT, BUFFER_COUNT).maxSets
    ensures GroupsDemand(InitialDescriptors(n), CombinedImageSampler) ==
            DeclaredBudget(n, TEXTURE_COUNT, BUFFER_COUNT).samplers + 1
    ensures GroupsDemand(InitialDescriptors(n), UniformBuffer) ==
            DeclaredBudget(n, TEXTURE_COUNT, BUFFER_COUNT).uniformBuffers + 3
    ensures !Fits(InitialDescriptors(n), DeclaredBudget(n, TEXTURE_COUNT, BUFFER_COUNT))
  {
    InitialDemand(n);
  }

  // ---------------------------------------------------------------------------
  // Binding sets to a pipeline

  /** One descriptor set named by its group and its index in that group (`getDescriptorSet`). */
  datatype SetRef = SetRef(group: nat, index: nat)

  /** The resources of type `t` a set's writes point at, in binding order. */
  function ResourcesOf(writes: seq<Write>, t: DescriptorType): seq<Resource>
    decreases |writes|
  {
    if writes == [] then []
    else
      var last := writes[|writes| - 1];
      ResourcesOf(writes[..|writes| - 1], t) + (if last.kind == t then last.resources else [])
  }

  /** The resources of type `t` in the set `r` names; nothing when `r` names no pushed set. */
  function SetResources(groups: seq<Group>, r: SetRef, t: DescriptorType): seq<Resource> {
    if r.group < |groups| && r.index < |groups[r.group].sets| then ResourcesOf(groups[r.group].sets[r.index], t)
    else []
  }

  /** The resources of type `t` a bind of `refs` makes visible, set by set. */
  function BoundResources(groups: seq<Group>, refs: seq<SetRef>, t: DescriptorType): seq<Resource>
    decreases |refs|
  {
    if refs == [] then []
    else BoundResources(groups, refs[..|refs| - 1], t) + SetResources(groups, refs[|refs| - 1], t)
  }

  /** Every reference names a set that has been pushed. */
  predicate Pushed(groups: seq<Group>, refs: seq<SetRef>) {
    forall j :: 0 <= j < |refs| ==> refs[j].group < |groups| && refs[j].index < |groups[refs[j].group].sets|
  }

  lemma BoundTwo(groups: seq<Group>, a: SetRef, b: SetRef, t: DescriptorType)
    ensures BoundResources(groups, [a, b], t) == SetResources(groups, a, t) + SetResources(groups, b, t)
  {
    assert [a, b][..1] == [a];
    assert [a][..0] == [];
    assert BoundResources(groups, [a], t) == [] + SetResources(groups, a, t) == SetResources(groups, a, t);
  }

  lemma ResourcesOfOne(u: Write, t: DescriptorType)
    ensures ResourcesOf([u], t) == (if u.kind == t then u.resources else [])
  {
    assert [u][..0] == [];
    var none: seq<Resource> := [];
    assert ResourcesOf([u], t) == none + (if u.kind == t then u.resources else []);
  }

  lemma ResourcesOfTwo(u: Write, v: Write, t: DescriptorType)
    ensures ResourcesOf([u], t) == (if u.kind == t then u.resources else [])
    ensures ResourcesOf([u, v], t) ==
            (if u.kind == t then u.resources else []) + (if v.kind == t then v.resources else [])
  {
    assert [u, v][..1] == [u];
    assert [u][..0] == [];
    var a: seq<Resource> := if u.kind == t then u.resources else [];
    var b: seq<Resource> := if v.kind == t then v.resources else [];
    assert ResourcesOf([u], t) == [] + a == a;
    assert ResourcesOf([u, v], t) == ResourcesOf([u], t) + b;
  }
}
