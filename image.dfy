/**
 * GPU image bookkeeping: the mip-level count, the layout-to-access-mask table
 * used by layout transitions, a per-mip-level layout tracker for recorded
 * barriers, the mip-chain generation recording, the per-layer upload layout,
 * and the `Image` object with its views and its ownership rule.
 */
module Images {
  import opened Vk

  // ---------------------------------------------------------------------------
  // Mip-level count
  // ---------------------------------------------------------------------------

  function Pow2(k: nat): (r: nat)
    ensures r >= 1
  {
    if k == 0 then 1 else 2 * Pow2(k - 1)
  }

  /**
   * ceil(log2 n), the smallest k with 2^k >= n. The repository's own
   * `math::ceilLog2` is not part of this model; this is its defining property.
   */
  function CeilLog2(n: nat): (k: nat)
    ensures n <= Pow2(k)
    ensures k > 0 ==> Pow2(k - 1) < n
    decreases n
  {
    if n <= 1 then 0 else 1 + CeilLog2((n + 1) / 2)
  }

  lemma {:induction false} CeilLog2AtMost(n: nat, b: nat)
    requires n <= Pow2(b)
    ensures CeilLog2(n) <= b
    decreases n
  {
    if n > 1 {
      assert b >= 1;
      CeilLog2AtMost((n + 1) / 2, b - 1);
    }
  }

  lemma Pow2Of32()
    ensures Pow2(32) == U32_MODULUS
  {
    assert Pow2(8) == 0x100;
    assert Pow2(16) == 0x1_0000;
    assert Pow2(24) == 0x100_0000;
  }

  function Max(a: nat, b: nat): nat {
    if a < b then b else a
  }

  /** The largest of the three dimensions, as `std::max(std::max(w, h), d)`. */
  function LargestDimension(e: Extent3D): nat {
    Max(Max(e.width, e.height), e.depth)
  }

  /** `Image::calculateMipLevelCount`: ceil(log2 of the largest dimension), at least 1. */
  function MipLevelCount(e: Extent3D): (m: nat)
    ensures m >= 1
    ensures LargestDimension(e) <= Pow2(m)
    ensures m > 1 ==> Pow2(m - 1) < LargestDimension(e)
    ensures CeilLog2(LargestDimension(e)) > 0 ==> m == CeilLog2(LargestDimension(e))
    ensures LargestDimension(e) <= 2 ==> m == 1
    ensures m <= 32
  {
    Pow2Of32();
    CeilLog2AtMost(LargestDimension(e), 32);
    var levels := CeilLog2(LargestDimension(e));
    if levels > 0 then levels else 1
  }

  lemma MipLevelCountFullHd()
    ensures MipLevelCount(Extent3D(1920, 1080, 1)) == 11
  {
    assert CeilLog2(2) == 1;
    assert CeilLog2(4) == 2;
    assert CeilLog2(8) == 3;
    assert CeilLog2(15) == 4;
    assert CeilLog2(30) == 5;
    assert CeilLog2(60) == 6;
    assert CeilLog2(120) == 7;
    assert CeilLog2(240) == 8;
    assert CeilLog2(480) == 9;
    assert CeilLog2(960) == 10;
    assert CeilLog2(1920) == 11;
  }

  lemma MipLevelCountExamples()
    ensures MipLevelCount(Extent3D(1024, 1024, 1)) == 10
    ensures MipLevelCount(Extent3D(256, 256, 1)) == 8
    ensures MipLevelCount(Extent3D(1, 1, 1)) == 1
  {
    assert CeilLog2(2) == 1;
    assert CeilLog2(4) == 2;
    assert CeilLog2(8) == 3;
    assert CeilLog2(16) == 4;
    assert CeilLog2(32) == 5;
    assert CeilLog2(64) == 6;
    assert CeilLog2(128) == 7;
    assert CeilLog2(256) == 8;
    assert CeilLog2(512) == 9;
    assert CeilLog2(1024) == 10;
  }

  // ---------------------------------------------------------------------------
  // Access masks of a layout transition (`Image::transitLayout`)
  // ---------------------------------------------------------------------------

  /** The accesses that must be finished in the old layout: the first switch, empty for the layouts it does not name. */
  function SourceAccess(oldLayout: Layout): (r: Flags)
    ensures r == ACCESS_NONE <==> oldLayout == Undefined || !HandledSource(oldLayout)
  {
    match oldLayout
    case Undefined => ACCESS_NONE
    case Preinitialized => ACCESS_HOST_WRITE
    case ColorAttachmentOptimal => ACCESS_COLOR_ATTACHMENT_WRITE
    case DepthStencilAttachmentOptimal => ACCESS_DEPTH_STENCIL_ATTACHMENT_WRITE
    case TransferSrcOptimal => ACCESS_TRANSFER_READ
    case TransferDstOptimal => ACCESS_TRANSFER_WRITE
    case ShaderReadOnlyOptimal => ACCESS_SHADER_READ
    case _ => ACCESS_NONE
  }

  datatype AccessPair = AccessPair(src: Flags, dst: Flags)

  /**
   * Both masks of a transition: the second switch, with its HOST/TRANSFER
   * write fallback. The destination mask is empty exactly for the layouts the
   * second switch does not name; the source mask is the first switch's except
   * for a transition into SHADER_READ_ONLY whose first-switch mask is empty
   * although the old layout is defined.
   */
  function TransitionAccess(oldLayout: Layout, newLayout: Layout): (r: AccessPair)
    ensures r.dst != ACCESS_NONE <==> HandledDestination(newLayout)
    ensures r.src != SourceAccess(oldLayout) <==>
      newLayout == ShaderReadOnlyOptimal && oldLayout != Undefined && SourceAccess(oldLayout) == ACCESS_NONE
    ensures r.src != SourceAccess(oldLayout) ==> r.src == ACCESS_HOST_WRITE | ACCESS_TRANSFER_WRITE
  {
    var src := SourceAccess(oldLayout);
    match newLayout
    case TransferDstOptimal => AccessPair(src, ACCESS_TRANSFER_WRITE)
    case TransferSrcOptimal => AccessPair(src, ACCESS_TRANSFER_READ)
    case ColorAttachmentOptimal =>
      AccessPair(src, ACCESS_COLOR_ATTACHMENT_WRITE | ACCESS_COLOR_ATTACHMENT_READ)
    case DepthStencilAttachmentOptimal => AccessPair(src, ACCESS_NONE | ACCESS_DEPTH_STENCIL_ATTACHMENT_WRITE)
    case ShaderReadOnlyOptimal =>
      var src' := if oldLayout != Undefined && src == ACCESS_NONE
                  then ACCESS_HOST_WRITE | ACCESS_TRANSFER_WRITE else src;
      AccessPair(src', ACCESS_SHADER_READ)
    case _ => AccessPair(src, ACCESS_NONE)
  }

  /** The layouts the first switch names. */
  predicate HandledSource(l: Layout) {
    l in {Undefined, Preinitialized, ColorAttachmentOptimal, DepthStencilAttachmentOptimal,
          TransferSrcOptimal, TransferDstOptimal, ShaderReadOnlyOptimal}
  }

  /** The layouts the second switch names. */
  predicate HandledDestination(l: Layout) {
    l in {TransferDstOptimal, TransferSrcOptimal, ColorAttachmentOptimal,
          DepthStencilAttachmentOptimal, ShaderReadOnlyOptimal}
  }

  /** The source mask, layout by layout. */
  lemma SourceMaskTable(o: Layout, n: Layout)
    ensures n != ShaderReadOnlyOptimal || o == Undefined || HandledSource(o) ==>
      TransitionAccess(o, n).src ==
        (match o
         case Preinitialized => ACCESS_HOST_WRITE
         case ColorAttachmentOptimal => ACCESS_COLOR_ATTACHMENT_WRITE
         case DepthStencilAttachmentOptimal => ACCESS_DEPTH_STENCIL_ATTACHMENT_WRITE
         case TransferSrcOptimal => ACCESS_TRANSFER_READ
         case TransferDstOptimal => ACCESS_TRANSFER_WRITE
         case ShaderReadOnlyOptimal => ACCESS_SHADER_READ
         case _ => ACCESS_NONE)
  {
  }

  /** The destination mask, layout by layout; it never depends on the old layout. */
  lemma DestinationMaskTable(o: Layout, n: Layout)
    ensures TransitionAccess(o, n).dst ==
      (match n
       case TransferDstOptimal => ACCESS_TRANSFER_WRITE
       case TransferSrcOptimal => ACCESS_TRANSFER_READ
       case ColorAttachmentOptimal => ACCESS_COLOR_ATTACHMENT_WRITE | ACCESS_COLOR_ATTACHMENT_READ
       case DepthStencilAttachmentOptimal => ACCESS_DEPTH_STENCIL_ATTACHMENT_WRITE
       case ShaderReadOnlyOptimal => ACCESS_SHADER_READ
       case _ => ACCESS_NONE)
    ensures TransitionAccess(o, n).dst != ACCESS_NONE <==> HandledDestination(n)
  {
  }

  /**
   * The HOST_WRITE|TRANSFER_WRITE fallback fires exactly for a transition into
   * SHADER_READ_ONLY from a defined layout the first switch does not name
   * (GENERAL, DEPTH_STENCIL_READ_ONLY, PRESENT_SRC); nowhere else does the
   * source mask differ from the first switch.
   */
  lemma HostWriteFallback(o: Layout, n: Layout)
    ensures TransitionAccess(o, n).src != SourceAccess(o) <==>
      n == ShaderReadOnlyOptimal && o in {General, DepthStencilReadOnlyOptimal, PresentSrc}
    ensures TransitionAccess(o, n).src != SourceAccess(o) ==>
      TransitionAccess(o, n).src == ACCESS_HOST_WRITE | ACCESS_TRANSFER_WRITE
  {
  }

  /** The source mask is empty exactly when nothing before the barrier needs to finish. */
  lemma SourceMaskEmptyIff(o: Layout, n: Layout)
    ensures TransitionAccess(o, n).src == ACCESS_NONE <==>
      o == Undefined || (!HandledSource(o) && n != ShaderReadOnlyOptimal)
  {
    SourceMaskTable(o, n);
    HostWriteFallback(o, n);
  }

  // ---------------------------------------------------------------------------
  // Layout tracking over recorded commands
  // ---------------------------------------------------------------------------

  /** The layout of each mip level of one image (barriers here always cover all layers). */
  type Levels = seq<Layout>

  function Uniform(count: nat, l: Layout): (s: Levels)
    ensures |s| == count && forall j :: 0 <= j < count ==> s[j] == l
  {
    seq(count, _ => l)
  }

  /** `s` with levels [base, base + count) moved to `l`. */
  function SetLevels(s: Levels, base: nat, count: nat, l: Layout): (r: Levels)
    ensures |r| == |s|
    ensures forall j :: 0 <= j < |s| ==> r[j] == if base <= j < base + count then l else s[j]
  {
    seq(|s|, j requires 0 <= j < |s| => if base <= j < base + count then l else s[j])
  }

  /** The levels of image `img` after command `c`. */
  function Apply(img: Handle, s: Levels, c: Command): Levels {
    match c
    case PipelineBarrier(_, _, b) =>
      if b.image == img then SetLevels(s, b.range.baseMipLevel, b.range.levelCount, b.newLayout) else s
    case _ => s
  }

  /** True when level `level` of `img` is in layout `l` (vacuous for other images). */
  predicate LevelIs(img: Handle, s: Levels, target: Handle, level: nat, l: Layout) {
    target == img ==> level < |s| && s[level] == l
  }

  /**
   * Command `c` is legal for image `img` in state `s`: a barrier names the
   * levels' actual layout as its old layout (or UNDEFINED, which discards),
   * and a blit or copy finds its source and destination levels in the
   * layouts it declares.
   */
  predicate Allowed(img: Handle, s: Levels, c: Command) {
    match c
    case PipelineBarrier(_, _, b) =>
      b.image == img ==>
        b.range.baseMipLevel + b.range.levelCount <= |s| &&
        (b.oldLayout == Undefined ||
         forall j :: b.range.baseMipLevel <= j < b.range.baseMipLevel + b.range.levelCount ==>
           s[j] == b.oldLayout)
    case BlitImage(src, srcLayout, dst, dstLayout, region, _) =>
      LevelIs(img, s, src, region.srcSubresource.mipLevel, srcLayout) &&
      LevelIs(img, s, dst, region.dstSubresource.mipLevel, dstLayout)
    case CopyImage(src, srcLayout, dst, dstLayout, region) =>
      LevelIs(img, s, src, region.srcSubresource.mipLevel, srcLayout) &&
      LevelIs(img, s, dst, region.dstSubresource.mipLevel, dstLayout)
  }

  function Run(img: Handle, s: Levels, cmds: seq<Command>): Levels
    decreases |cmds|
  {
    if cmds == [] then s else Run(img, Apply(img, s, cmds[0]), cmds[1..])
  }

  predicate Consistent(img: Handle, s: Levels, cmds: seq<Command>)
    decreases |cmds|
  {
    cmds == [] || (Allowed(img, s, cmds[0]) && Consistent(img, Apply(img, s, cmds[0]), cmds[1..]))
  }

  lemma {:induction false} RunAppend(img: Handle, s: Levels, a: seq<Command>, b: seq<Command>)
    ensures Run(img, s, a + b) == Run(img, Run(img, s, a), b)
    ensures Consistent(img, s, a + b) <==> Consistent(img, s, a) && Consistent(img, Run(img, s, a), b)
    decreases |a|
  {
    if a == [] {
      assert a + b == b;
    } else {
      assert (a + b)[0] == a[0];
      assert (a + b)[1..] == a[1..] + b;
      RunAppend(img, Apply(img, s, a[0]), a[1..], b);
    }
  }

  lemma RunThree(img: Handle, s: Levels, c0: Command, c1: Command, c2: Command)
    ensures Run(img, s, [c0, c1, c2]) == Apply(img, Apply(img, Apply(img, s, c0), c1), c2)
    ensures Consistent(img, s, [c0, c1, c2]) <==>
      Allowed(img, s, c0) && Allowed(img, Apply(img, s, c0), c1) &&
      Allowed(img, Apply(img, Apply(img, s, c0), c1), c2)
  {
    var s1 := Apply(img, s, c0);
    var s2 := Apply(img, s1, c1);
    assert [c0, c1, c2][0] == c0 && [c0, c1, c2][1..] == [c1, c2];
    assert [c1, c2][0] == c1 && [c1, c2][1..] == [c2];
    assert [c2][0] == c2 && [c2][1..] == [];
    assert Run(img, s2, [c2]) == Run(img, Apply(img, s2, c2), []);
    assert Run(img, s1, [c1, c2]) == Run(img, s2, [c2]);
    assert Run(img, s, [c0, c1, c2]) == Run(img, s1, [c1, c2]);
    assert Consistent(img, s2, [c2]) == Allowed(img, s2, c2);
    assert Consistent(img, s1, [c1, c2]) == (Allowed(img, s1, c1) && Consistent(img, s2, [c2]));
  }

  lemma RunOne(img: Handle, s: Levels, c: Command)
    ensures Run(img, s, [c]) == Apply(img, s, c)
    ensures Consistent(img, s, [c]) <==> Allowed(img, s, c)
  {
    assert [c][1..] == [];
  }

  // ---------------------------------------------------------------------------
  // Mip-chain generation (`Image::generateMipmaps`, inline variant)
  // ---------------------------------------------------------------------------

  /** What one `generateMipmaps` call records about: the image and the caller's arguments. */
  datatype MipParams = MipParams(
    image: Handle, aspect: Flags, filter: Filter, levels: nat, layers: nat,
    width: int, height: int, finalLayout: Layout, finalAccess: Flags, finalStage: Flags)

  /** `int32_t x = uint32 value`: values of 2^31 and above wrap to negative. */
  function ToInt32(x: U32): int {
    if x < 0x8000_0000 then x else x - 0x1_0000_0000
  }

  /** `if (w > 1) w /= 2;`: the tracked extent after one level. */
  function Halve(w: int): int {
    if w > 1 then w / 2 else w
  }

  /** The tracked extent after `n` levels. */
  function Halved(w: int, n: nat): int {
    if n == 0 then w else Halve(Halved(w, n - 1))
  }

  /** `w > 1 ? w / 2 : 1`: the destination extent of a blit whose source extent is `w`. */
  function HalfExtent(w: int): int {
    if w > 1 then w / 2 else 1
  }

  function LevelRange(p: MipParams, level: nat): SubresourceRange {
    SubresourceRange(p.aspect, level, 1, 0, p.layers)
  }

  /** The barrier / blit / barrier triple of loop iteration `i`, with tracked extent (w, h). */
  function MipStep(p: MipParams, i: nat, w: int, h: int): seq<Command>
    requires i >= 1
  {
    [ PipelineBarrier(STAGE_TRANSFER, STAGE_TRANSFER,
        ImageBarrier(ACCESS_TRANSFER_WRITE, ACCESS_TRANSFER_READ,
                     TransferDstOptimal, TransferSrcOptimal, p.image, LevelRange(p, i - 1))),
      BlitImage(p.image, TransferSrcOptimal, p.image, TransferDstOptimal,
        BlitRegion(SubresourceLayers(p.aspect, i - 1, 0, p.layers), Offset3D(0, 0, 0), Offset3D(w, h, 1),
                   SubresourceLayers(p.aspect, i, 0, p.layers), Offset3D(0, 0, 0),
                   Offset3D(HalfExtent(w), HalfExtent(h), 1)),
        p.filter),
      PipelineBarrier(STAGE_TRANSFER, p.finalStage,
        ImageBarrier(ACCESS_TRANSFER_READ, p.finalAccess,
                     TransferSrcOptimal, p.finalLayout, p.image, LevelRange(p, i - 1))) ]
  }

  /** The commands of loop iterations 1 .. k-1. */
  function MipLoop(p: MipParams, k: nat): seq<Command>
    decreases k
  {
    if k <= 1 then []
    else MipLoop(p, k - 1) + MipStep(p, k - 1, Halved(p.width, k - 2), Halved(p.height, k - 2))
  }

  function FinalBarrier(p: MipParams): Command
    requires p.levels >= 1
  {
    PipelineBarrier(STAGE_TRANSFER, p.finalStage,
      ImageBarrier(ACCESS_TRANSFER_WRITE, p.finalAccess,
                   TransferDstOptimal, p.finalLayout, p.image, LevelRange(p, p.levels - 1)))
  }

  /** Everything one `generateMipmaps` call records. */
  function MipChain(p: MipParams): seq<Command>
    requires p.levels >= 1
  {
    MipLoop(p, p.levels) + [FinalBarrier(p)]
  }

  lemma {:induction false} MipLoopLength(p: MipParams, k: nat)
    requires k >= 1
    ensures |MipLoop(p, k)| == 3 * (k - 1)
    decreases k
  {
    if k > 1 {
      MipLoopLength(p, k - 1);
    }
  }

  /** Iteration i occupies positions [3(i-1), 3i) of the recording. */
  lemma {:induction false} MipLoopAt(p: MipParams, k: nat, i: nat)
    requires 1 <= i < k
    ensures |MipLoop(p, k)| == 3 * (k - 1)
    ensures MipLoop(p, k)[3 * (i - 1) .. 3 * i] ==
            MipStep(p, i, Halved(p.width, i - 1), Halved(p.height, i - 1))
    decreases k
  {
    MipLoopLength(p, k);
    MipLoopLength(p, k - 1);
    var prev := MipLoop(p, k - 1);
    var step := MipStep(p, k - 1, Halved(p.width, k - 2), Halved(p.height, k - 2));
    assert MipLoop(p, k) == prev + step;
    if i == k - 1 {
      assert MipLoop(p, k)[3 * (i - 1) .. 3 * i] == step;
    } else {
      MipLoopAt(p, k - 1, i);
      assert MipLoop(p, k)[3 * (i - 1) .. 3 * i] == prev[3 * (i - 1) .. 3 * i];
    }
  }

  function CountBlits(cmds: seq<Command>): nat
    decreases |cmds|
  {
    if cmds == [] then 0
    else CountBlits(cmds[..|cmds| - 1]) + (if cmds[|cmds| - 1].BlitImage? then 1 else 0)
  }

  lemma {:induction false} CountBlitsAppend(a: seq<Command>, b: seq<Command>)
    ensures CountBlits(a + b) == CountBlits(a) + CountBlits(b)
    decreases |b|
  {
    if b == [] {
      assert a + b == a;
    } else {
      assert (a + b)[..|a + b| - 1] == a + b[..|b| - 1];
      CountBlitsAppend(a, b[..|b| - 1]);
    }
  }

  lemma {:induction false} MipLoopBlits(p: MipParams, k: nat)
    requires k >= 1
    ensures CountBlits(MipLoop(p, k)) == k - 1
    decreases k
  {
    if k > 1 {
      var step := MipStep(p, k - 1, Halved(p.width, k - 2), Halved(p.height, k - 2));
      MipLoopBlits(p, k - 1);
      CountBlitsAppend(MipLoop(p, k - 1), step);
      assert step[..2][..1] == [step[0]];
      assert step[..2] == [step[0], step[1]];
      assert step[..|step| - 1] == step[..2];
      assert CountBlits([step[0]]) == 0 by { assert [step[0]][..0] == []; }
    }
  }

  /**
   * The shape of a mip chain of M = p.levels levels: 3(M-1)+1 commands and
   * M-1 blits. Blit i reads level i-1 at the tracked extent and writes level i
   * at half that extent. Level i-1 moves TRANSFER_DST -> TRANSFER_SRC just
   * before its blit and TRANSFER_SRC -> finalLayout just after it. The last
   * command moves level M-1 TRANSFER_DST -> finalLayout.
   */
  lemma MipChainShape(p: MipParams, i: nat)
    requires p.levels >= 1
    ensures |MipChain(p)| == 3 * (p.levels - 1) + 1
    ensures CountBlits(MipChain(p)) == p.levels - 1
    ensures MipChain(p)[|MipChain(p)| - 1] == FinalBarrier(p)
    ensures FinalBarrier(p).barrier.range.baseMipLevel == p.levels - 1
    ensures 1 <= i < p.levels ==>
      var c := MipChain(p);
      var w := Halved(p.width, i - 1);
      var h := Halved(p.height, i - 1);
      && c[3 * i - 2].BlitImage?
      && c[3 * i - 2].region.srcSubresource.mipLevel == i - 1
      && c[3 * i - 2].region.dstSubresource.mipLevel == i
      && c[3 * i - 2].region.srcTo == Offset3D(w, h, 1)
      && c[3 * i - 2].region.dstTo == Offset3D(HalfExtent(w), HalfExtent(h), 1)
      && c[3 * i - 3].PipelineBarrier?
      && c[3 * i - 3].barrier.range.baseMipLevel == i - 1
      && c[3 * i - 3].barrier.oldLayout == TransferDstOptimal
      && c[3 * i - 3].barrier.newLayout == TransferSrcOptimal
      && c[3 * i - 1].PipelineBarrier?
      && c[3 * i - 1].barrier.range.baseMipLevel == i - 1
      && c[3 * i - 1].barrier.oldLayout == TransferSrcOptimal
      && c[3 * i - 1].barrier.newLayout == p.finalLayout
  {
    MipLoopLength(p, p.levels);
    MipLoopBlits(p, p.levels);
    CountBlitsAppend(MipLoop(p, p.levels), [FinalBarrier(p)]);
    assert CountBlits([FinalBarrier(p)]) == 0 by { assert [FinalBarrier(p)][..0] == []; }
    if 1 <= i < p.levels {
      MipLoopAt(p, p.levels, i);
      var step := MipStep(p, i, Halved(p.width, i - 1), Halved(p.height, i - 1));
      assert MipChain(p)[3 * i - 3] == step[0];
      assert MipChain(p)[3 * i - 2] == step[1];
      assert MipChain(p)[3 * i - 1] == step[2];
    }
  }

  /** Levels [0, k-1) in the final layout, the rest still TRANSFER_DST. */
  function LevelsAfter(p: MipParams, k: nat): (s: Levels)
    ensures |s| == p.levels
  {
    seq(p.levels, j => if j < k - 1 then p.finalLayout else TransferDstOptimal)
  }

  lemma MipStepLayouts(p: MipParams, i: nat, w: int, h: int)
    requires 1 <= i < p.levels
    ensures Consistent(p.image, LevelsAfter(p, i), MipStep(p, i, w, h))
    ensures Run(p.image, LevelsAfter(p, i), MipStep(p, i, w, h)) == LevelsAfter(p, i + 1)
  {
    var step := MipStep(p, i, w, h);
    var s0 := LevelsAfter(p, i);
    var s1 := Apply(p.image, s0, step[0]);
    var s2 := Apply(p.image, s1, step[1]);
    var s3 := Apply(p.image, s2, step[2]);
    assert step == [step[0], step[1], step[2]];
    RunThree(p.image, s0, step[0], step[1], step[2]);
    assert s1[i - 1] == TransferSrcOptimal;
    assert s1[i] == TransferDstOptimal;
    assert s2 == s1;
    assert s3 == LevelsAfter(p, i + 1);
  }

  lemma {:induction false} MipLoopLayouts(p: MipParams, k: nat)
    requires 1 <= k <= p.levels
    ensures Consistent(p.image, Uniform(p.levels, TransferDstOptimal), MipLoop(p, k))
    ensures Run(p.image, Uniform(p.levels, TransferDstOptimal), MipLoop(p, k)) == LevelsAfter(p, k)
    decreases k
  {
    var s := Uniform(p.levels, TransferDstOptimal);
    if k == 1 {
      assert s == LevelsAfter(p, 1);
    } else {
      MipLoopLayouts(p, k - 1);
      var step := MipStep(p, k - 1, Halved(p.width, k - 2), Halved(p.height, k - 2));
      RunAppend(p.image, s, MipLoop(p, k - 1), step);
      MipStepLayouts(p, k - 1, Halved(p.width, k - 2), Halved(p.height, k - 2));
    }
  }

  /**
   * The layout-tracking invariant of mip generation: when every level starts
   * in TRANSFER_DST, every barrier and blit finds the layouts it declares and
   * every level ends in the caller's final layout.
   */
  lemma MipChainLayouts(p: MipParams)
    requires p.levels >= 1
    ensures Consistent(p.image, Uniform(p.levels, TransferDstOptimal), MipChain(p))
    ensures Run(p.image, Uniform(p.levels, TransferDstOptimal), MipChain(p)) ==
            Uniform(p.levels, p.finalLayout)
  {
    var s := Uniform(p.levels, TransferDstOptimal);
    MipLoopLayouts(p, p.levels);
    RunAppend(p.image, s, MipLoop(p, p.levels), [FinalBarrier(p)]);
    RunOne(p.image, LevelsAfter(p, p.levels), FinalBarrier(p));
    assert Apply(p.image, LevelsAfter(p, p.levels), FinalBarrier(p)) == Uniform(p.levels, p.finalLayout);
  }

  /**
   * Extents along the chain: every blit's destination extent is at least 1;
   * from a positive width the tracked width stays positive and never grows;
   * and each blit's destination extent is the next blit's source extent.
   */
  lemma {:induction false} MipExtents(w: int, n: nat)
    ensures HalfExtent(Halved(w, n)) >= 1
    ensures w >= 1 ==> 1 <= Halved(w, n) <= w
    ensures w >= 1 ==> HalfExtent(Halved(w, n)) == Halved(w, n + 1)
  {
    if n > 0 {
      MipExtents(w, n - 1);
    }
  }

  // ---------------------------------------------------------------------------
  // Per-layer upload (`Image::updateData`)
  // ---------------------------------------------------------------------------

  /** `extent.width * extent.height * pixelSize`, a uint32 product that wraps. */
  function LayerSize(e: Extent3D, pixelSize: U32): nat {
    (e.width * e.height * pixelSize) % U32_MODULUS
  }

  /** The bounds check as written: `layersOffset + updatedLayers` is a uint32 sum. */
  predicate UploadGuardAsWritten(layersOffset: U32, count: U32, arrayLayers: nat) {
    (layersOffset + count) % U32_MODULUS <= arrayLayers
  }

  /** The bounds check as intended: the updated layers lie inside the image. */
  predicate UploadFits(layersOffset: nat, count: nat, arrayLayers: nat) {
    layersOffset + count <= arrayLayers
  }

  /** The copy region of layer i of an upload: layer i of the staging buffer into image layer offset+i. */
  function UploadRegion(e: Extent3D, layersOffset: nat, layerSize: nat, i: nat): BufferImageCopy {
    BufferImageCopy(i * layerSize, SubresourceLayers(ASPECT_COLOR, 0, layersOffset + i, 1),
                    Offset3D(0, 0, 0), Extent3D(e.width, e.height, 1))
  }

  function UploadRegions(e: Extent3D, layersOffset: nat, layerSize: nat, count: nat): seq<BufferImageCopy> {
    seq(count, i requires 0 <= i => UploadRegion(e, layersOffset, layerSize, i))
  }

  /** The staging writes: layer i of the data at offset i * layerSize. */
  function StagingWrites(data: seq<nat>, layerSize: nat): seq<Call> {
    seq(|data|, i requires 0 <= i < |data| => StageLayer(data[i], i * layerSize, layerSize))
  }

  function UploadRange(mipLevels: nat, layersOffset: nat, count: nat): SubresourceRange {
    SubresourceRange(ASPECT_COLOR, 0, mipLevels, layersOffset, count)
  }

  lemma StagingWritesSnoc(data: seq<nat>, i: nat, layerSize: nat)
    requires i < |data|
    ensures StagingWrites(data[..i + 1], layerSize) ==
            StagingWrites(data[..i], layerSize) + [StageLayer(data[i], i * layerSize, layerSize)]
  {
  }

  /** Everything one `updateData` call issues. */
  function UploadCalls(image: Handle, mipLevels: nat, e: Extent3D, data: seq<nat>,
                       layersOffset: nat, pixelSize: U32): seq<Call>
  {
    var ls := LayerSize(e, pixelSize);
    var acc := TransitionAccess(Undefined, TransferDstOptimal);
    [CreateStagingBuffer(ls * |data|)] + StagingWrites(data, ls) +
    [SubmitOneTime([PipelineBarrier(STAGE_TOP_OF_PIPE, STAGE_TRANSFER,
                      ImageBarrier(acc.src, acc.dst, Undefined, TransferDstOptimal, image,
                                   UploadRange(mipLevels, layersOffset, |data|)))]),
     CopyBufferToImage(image, UploadRegions(e, layersOffset, ls, |data|))]
  }

  /** Some region of `regions` writes image layer `layer`. */
  predicate CoversLayer(regions: seq<BufferImageCopy>, layer: nat) {
    exists i :: 0 <= i < |regions| && regions[i].imageSubresource.baseArrayLayer == layer
  }

  lemma MulMonotone(a: nat, b: nat, c: nat)
    requires a <= b
    ensures a * c <= b * c
  {
  }

  /**
   * The upload layout: one region per updated layer, region i reading bytes
   * [i*ls, (i+1)*ls) of a staging buffer of ls*n bytes (so the regions are
   * disjoint and inside the buffer) and writing exactly layer offset+i;
   * the regions together cover exactly layers [offset, offset+n), and the
   * preceding transition covers every mip of those layers.
   */
  lemma UploadLayout(e: Extent3D, layersOffset: nat, ls: nat, n: nat, mipLevels: nat)
    ensures |UploadRegions(e, layersOffset, ls, n)| == n
    ensures forall i :: 0 <= i < n ==>
      var r := UploadRegions(e, layersOffset, ls, n)[i];
      r.bufferOffset == i * ls && r.bufferOffset + ls <= ls * n &&
      r.imageSubresource.baseArrayLayer == layersOffset + i && r.imageSubresource.layerCount == 1 &&
      r.imageExtent == Extent3D(e.width, e.height, 1)
    ensures forall i, j :: 0 <= i < j < n ==>
      UploadRegions(e, layersOffset, ls, n)[i].bufferOffset + ls <= UploadRegions(e, layersOffset, ls, n)[j].bufferOffset
    ensures forall layer: nat :: CoversLayer(UploadRegions(e, layersOffset, ls, n), layer) <==>
                            layersOffset <= layer < layersOffset + n
    ensures var t := UploadRange(mipLevels, layersOffset, n);
      t.baseMipLevel == 0 && t.levelCount == mipLevels &&
      t.baseArrayLayer == layersOffset && t.layerCount == n
  {
    var rs := UploadRegions(e, layersOffset, ls, n);
    forall i | 0 <= i < n
      ensures rs[i].bufferOffset + ls <= ls * n
    {
      MulMonotone(i + 1, n, ls);
    }
    forall i, j | 0 <= i < j < n
      ensures rs[i].bufferOffset + ls <= rs[j].bufferOffset
    {
      MulMonotone(i + 1, j, ls);
    }
    forall layer | layersOffset <= layer < layersOffset + n
      ensures CoversLayer(rs, layer)
    {
      var i := layer - layersOffset;
      assert rs[i].imageSubresource.baseArrayLayer == layer;
    }
  }

  /** With the intended bounds check every region and the transition lie inside the image. */
  lemma UploadWithinImage(e: Extent3D, layersOffset: nat, ls: nat, n: nat, mipLevels: nat, arrayLayers: nat)
    requires UploadFits(layersOffset, n, arrayLayers)
    ensures RangeWithin(UploadRange(mipLevels, layersOffset, n), mipLevels, arrayLayers)
    ensures forall i :: 0 <= i < n ==> UploadRegions(e, layersOffset, ls, n)[i].imageSubresource.baseArrayLayer < arrayLayers
  {
  }

  /**
   * The bounds check as written lets an upload through whose layers lie
   * outside the image: offset 0xFFFFFFFF, one layer, a one-layer image.
   */
  lemma UploadGuardWraps()
    ensures UploadGuardAsWritten(0xFFFF_FFFF, 1, 1)
    ensures !UploadFits(0xFFFF_FFFF, 1, 1)
    ensures UploadRegions(Extent3D(1, 1, 1), 0xFFFF_FFFF, 4, 1)[0].imageSubresource.baseArrayLayer >= 1
    ensures !RangeWithin(UploadRange(1, 0xFFFF_FFFF, 1), 1, 1)
  {
  }

  // ---------------------------------------------------------------------------
  // Image creation, views and teardown
  // ---------------------------------------------------------------------------

  /** An image view: its handle, its type and the sub-range it covers. */
  datatype View = View(handle: Handle, viewType: ViewType, range: SubresourceRange)

  /** The image type `createThisImage` chooses. */
  function ImageTypeFor(e: Extent3D): ImageType {
    if e.height > 0 then Image2D else Image1D
  }

  /** The create flags `createThisImage` passes: the caller's, plus CUBE_COMPATIBLE for a 2D cube map. */
  function CreateFlagsFor(flags: Flags, e: Extent3D, cubeMap: bool): (r: Flags)
    ensures (r & IMAGE_CREATE_CUBE_COMPATIBLE != 0) <==>
            (flags & IMAGE_CREATE_CUBE_COMPATIBLE != 0 || (cubeMap && e.height > 0))
    ensures r & !IMAGE_CREATE_CUBE_COMPATIBLE == flags & !IMAGE_CREATE_CUBE_COMPATIBLE
  {
    if e.height > 0 && cubeMap then flags | IMAGE_CREATE_CUBE_COMPATIBLE else flags
  }

  function ImageCreateInfoFor(flags: Flags, format: Format, e: Extent3D, mipLevels: nat, arrayLayers: nat,
                              samples: SampleCount, usage: Flags, cubeMap: bool): ImageCreateInfo
  {
    ImageCreateInfo(CreateFlagsFor(flags, e, cubeMap), ImageTypeFor(e), format, e,
                    mipLevels, arrayLayers, samples, usage, Undefined)
  }

  /**
   * The view type `pushFullView` chooses; None is the assertion that aborts
   * when a cube map has fewer than six layers.
   */
  function FullViewType(e: Extent3D, arrayLayers: nat, cubeMap: bool): (r: Option<ViewType>)
    ensures r == Some(View1D) <==> e.height == 0 && arrayLayers == 1
    ensures r == Some(View1DArray) <==> e.height == 0 && arrayLayers != 1
    ensures r == Some(ViewCube) <==> e.height > 0 && cubeMap && arrayLayers >= 6
    ensures r == None <==> e.height > 0 && cubeMap && arrayLayers < 6
    ensures r == Some(View2DArray) <==> e.height > 0 && !cubeMap && arrayLayers > 1
    ensures r == Some(View2D) <==> e.height > 0 && !cubeMap && arrayLayers <= 1
  {
    if e.height > 0 then
      if cubeMap then (if arrayLayers >= 6 then Some(ViewCube) else None)
      else if arrayLayers > 1 then Some(View2DArray) else Some(View2D)
    else if arrayLayers == 1 then Some(View1D) else Some(View1DArray)
  }

  /**
   * The full view agrees with the image `createThisImage` made: a 1D view
   * exactly for a 1D image, and a cube view only on a cube-compatible image.
   */
  lemma FullViewMatchesImage(flags: Flags, e: Extent3D, arrayLayers: nat, cubeMap: bool)
    requires FullViewType(e, arrayLayers, cubeMap).Some?
    ensures (FullViewType(e, arrayLayers, cubeMap).value in {View1D, View1DArray}) <==>
            ImageTypeFor(e) == Image1D
    ensures FullViewType(e, arrayLayers, cubeMap).value == ViewCube ==>
            CreateFlagsFor(flags, e, cubeMap) & IMAGE_CREATE_CUBE_COMPATIBLE != 0
  {
  }

  /** The barrier `transitLayout` records on `image`, with the access masks of the table. */
  function TransitionBarrier(image: Handle, oldLayout: Layout, newLayout: Layout, srcStage: Flags, dstStage: Flags,
                             range: SubresourceRange): Command
  {
    var acc := TransitionAccess(oldLayout, newLayout);
    PipelineBarrier(srcStage, dstStage, ImageBarrier(acc.src, acc.dst, oldLayout, newLayout, image, range))
  }

  function ViewTeardown(views: seq<View>): seq<Call> {
    seq(|views|, k requires 0 <= k < |views| => DestroyImageView(views[k].handle))
  }

  /** What the destructor issues: every view, then the image and its memory unless the swapchain owns them. */
  function TeardownCalls(views: seq<View>, swapChainImage: bool, image: Handle, memory: Option<Handle>): seq<Call>
    requires !swapChainImage ==> memory.Some?
  {
    ViewTeardown(views) + (if swapChainImage then [] else [DestroyImage(image), FreeMemory(memory.value)])
  }

  /**
   * The ownership rule: a swapchain image never destroys the image or frees
   * memory, an owned one does both exactly once; every view is destroyed, and
   * all views go before the image and its memory.
   */
  lemma TeardownOwnership(views: seq<View>, swapChainImage: bool, image: Handle, memory: Option<Handle>)
    requires !swapChainImage ==> memory.Some?
    ensures var t := TeardownCalls(views, swapChainImage, image, memory);
      && |t| == |views| + (if swapChainImage then 0 else 2)
      && ((exists k :: 0 <= k < |t| && t[k].FreeMemory?) <==> !swapChainImage)
      && ((exists k :: 0 <= k < |t| && t[k].DestroyImage?) <==> !swapChainImage)
      && (!swapChainImage ==> FreeMemory(memory.value) in t && DestroyImage(image) in t)
      && (forall k :: 0 <= k < |views| ==> DestroyImageView(views[k].handle) in t)
      && (forall i, j :: (0 <= i < |t| && 0 <= j < |t| && t[i].DestroyImageView? &&
                          (t[j].DestroyImage? || t[j].FreeMemory?)) ==> i < j)
  {
    var t := TeardownCalls(views, swapChainImage, image, memory);
    forall k | 0 <= k < |views|
      ensures DestroyImageView(views[k].handle) in t
    {
      assert t[k] == DestroyImageView(views[k].handle);
    }
    if !swapChainImage {
      assert t[|views| + 1] == FreeMemory(memory.value);
      assert t[|views|] == DestroyImage(image);
    }
  }

  /** The layout a storage-image descriptor of an image view declares (`getStorageImageInfo`). */
  const STORAGE_IMAGE_LAYOUT: Layout := General

  /**
   * A GPU image: its creation parameters, its views, and whether its memory
   * belongs to the swapchain.
   */
  class Image {
    const device: Device
    const image: Handle
    const memory: Option<Handle>
    const format: Format
    const extent: Extent3D
    const mipLevels: U32
    const arrayLayers: U32
    const sampleCount: SampleCount
    const swapChainImage: bool
    const cubeMap: bool
    var views: seq<View>

    /** The image invariant: a real mip chain and layer count, the ownership rule, and in-bounds views. */
    ghost predicate Valid()
      reads this
    {
      && 1 <= mipLevels && 1 <= arrayLayers
      && (swapChainImage <==> memory.None?)
      && (swapChainImage ==> mipLevels == 1 && arrayLayers == 1 && !cubeMap)
      && (cubeMap && extent.height > 0 ==> arrayLayers >= 6)
      && forall k :: 0 <= k < |views| ==> RangeWithin(views[k].range, mipLevels, arrayLayers)
    }

    /** The owning constructor: creates the image, allocates its memory and binds it. */
    constructor (device: Device, flags: Flags, format: Format, extent: Extent3D, mipLevels: U32,
                 arrayLayers: U32, sampleCount: SampleCount, usage: Flags, cubeMap: bool)
      requires 1 <= mipLevels && 1 <= arrayLayers
      requires cubeMap && extent.height > 0 ==> arrayLayers >= 6
      modifies device
      ensures Valid() && views == [] && !swapChainImage
      ensures this.device == device && this.format == format && this.extent == extent
      ensures this.mipLevels == mipLevels && this.arrayLayers == arrayLayers
      ensures this.sampleCount == sampleCount && this.cubeMap == cubeMap
      ensures image == old(device.nextHandle) && memory == Some(image + 1)
      ensures device.nextHandle == old(device.nextHandle) + 2
      ensures device.calls == old(device.calls) +
        [CreateImage(image, ImageCreateInfoFor(flags, format, extent, mipLevels, arrayLayers,
                                               sampleCount, usage, cubeMap)),
         AllocateMemory(image + 1, image),
         BindImageMemory(image, image + 1)]
      ensures OneTimeCommands(device.calls) == OneTimeCommands(old(device.calls))
    {
      this.device := device;
      this.format := format;
      this.extent := extent;
      this.mipLevels := mipLevels;
      this.arrayLayers := arrayLayers;
      this.sampleCount := sampleCount;
      this.cubeMap := cubeMap;
      this.swapChainImage := false;
      var h := device.NewHandle();
      device.Issue(CreateImage(h, ImageCreateInfoFor(flags, format, extent, mipLevels, arrayLayers,
                                                     sampleCount, usage, cubeMap)));
      var m := device.NewHandle();
      device.Issue(AllocateMemory(m, h));
      device.Issue(BindImageMemory(h, m));
      this.image := h;
      this.memory := Some(m);
      this.views := [];
    }

    /** The swapchain constructor: wraps a presentable image it does not own. */
    constructor FromSwapChain(device: Device, image: Handle, format: Format, extent: Extent3D)
      ensures Valid() && views == [] && swapChainImage && memory == None
      ensures this.device == device && this.image == image
      ensures this.format == format && this.extent == extent
      ensures mipLevels == 1 && arrayLayers == 1 && sampleCount == SAMPLE_COUNT_1 && !cubeMap
    {
      this.device := device;
      this.image := image;
      this.memory := None;
      this.format := format;
      this.extent := extent;
      this.mipLevels := 1;
      this.arrayLayers := 1;
      this.sampleCount := SAMPLE_COUNT_1;
      this.swapChainImage := true;
      this.cubeMap := false;
      this.views := [];
    }

    /** The destructor: destroys every view, then the image and its memory unless the swapchain owns them. */
    method Destroy()
      requires Valid()
      modifies device
      ensures device.calls == old(device.calls) + TeardownCalls(views, swapChainImage, image, memory)
      ensures device.nextHandle == old(device.nextHandle)
    {
      var k := 0;
      while k < |views|
        invariant 0 <= k <= |views|
        invariant device.calls == old(device.calls) + ViewTeardown(views[..k])
        invariant device.nextHandle == old(device.nextHandle)
      {
        device.Issue(DestroyImageView(views[k].handle));
        assert ViewTeardown(views[..k + 1]) == ViewTeardown(views[..k]) + [DestroyImageView(views[k].handle)];
        k := k + 1;
      }
      assert views[..k] == views;
      if !swapChainImage {
        device.Issue(DestroyImage(image));
        device.Issue(FreeMemory(memory.value));
      }
    }

    /** Creates a view over `range` and appends it; earlier views keep their positions. */
    method PushView(viewType: ViewType, range: SubresourceRange)
      requires Valid()
      requires RangeWithin(range, mipLevels, arrayLayers)
      modifies this, device
      ensures Valid()
      ensures views == old(views) + [View(old(device.nextHandle), viewType, range)]
      ensures device.nextHandle == old(device.nextHandle) + 1
      ensures device.calls == old(device.calls) +
              [CreateImageView(old(device.nextHandle), image, viewType, format, range)]
      ensures OneTimeCommands(device.calls) == OneTimeCommands(old(device.calls))
    {
      var view := device.NewHandle();
      device.Issue(CreateImageView(view, image, viewType, format, range));
      views := views + [View(view, viewType, range)];
    }

    /** The sub-range of every mip level and every layer. */
    function FullRange(aspect: Flags): (r: SubresourceRange)
      ensures RangeWithin(r, mipLevels, arrayLayers)
      ensures r.baseMipLevel == 0 && r.levelCount == mipLevels
      ensures r.baseArrayLayer == 0 && r.layerCount == arrayLayers
    {
      SubresourceRange(aspect, 0, mipLevels, 0, arrayLayers)
    }

    /** Appends a view over the whole image, of the type `FullViewType` chooses. */
    method PushFullView(aspect: Flags)
      requires Valid()
      modifies this, device
      ensures Valid()
      ensures FullViewType(extent, arrayLayers, cubeMap).Some?
      ensures views == old(views) +
              [View(old(device.nextHandle), FullViewType(extent, arrayLayers, cubeMap).value, FullRange(aspect))]
      ensures device.nextHandle == old(device.nextHandle) + 1
      ensures device.calls == old(device.calls) +
              [CreateImageView(old(device.nextHandle), image, FullViewType(extent, arrayLayers, cubeMap).value,
                               format, FullRange(aspect))]
      ensures OneTimeCommands(device.calls) == OneTimeCommands(old(device.calls))
    {
      var viewType := FullViewType(extent, arrayLayers, cubeMap);
      PushView(viewType.value, FullRange(aspect));
    }

    /** Records one image barrier on this image. */
    method MemoryBarrier(cb: CommandBuffer, oldLayout: Layout, newLayout: Layout,
                         srcAccess: Flags, dstAccess: Flags, srcStage: Flags, dstStage: Flags,
                         range: SubresourceRange)
      modifies cb
      ensures cb.commands == old(cb.commands) +
              [PipelineBarrier(srcStage, dstStage,
                 ImageBarrier(srcAccess, dstAccess, oldLayout, newLayout, image, range))]
    {
      cb.Record(PipelineBarrier(srcStage, dstStage,
                  ImageBarrier(srcAccess, dstAccess, oldLayout, newLayout, image, range)));
    }

    /** Transitions `range` in a one-time command buffer holding a single barrier. */
    method TransitLayout(oldLayout: Layout, newLayout: Layout, srcStage: Flags, dstStage: Flags,
                         range: SubresourceRange)
      modifies device
      ensures device.calls == old(device.calls) +
              [SubmitOneTime([TransitionBarrier(image, oldLayout, newLayout, srcStage, dstStage, range)])]
      ensures device.nextHandle == old(device.nextHandle)
      ensures OneTimeCommands(device.calls) ==
              OneTimeCommands(old(device.calls)) + [TransitionBarrier(image, oldLayout, newLayout, srcStage, dstStage, range)]
    {
      var cb := new CommandBuffer();
      assert device.calls == old(device.calls);
      var acc := TransitionAccess(oldLayout, newLayout);
      MemoryBarrier(cb, oldLayout, newLayout, acc.src, acc.dst, srcStage, dstStage, range);
      assert cb.commands == [TransitionBarrier(image, oldLayout, newLayout, srcStage, dstStage, range)];
      device.Issue(SubmitOneTime(cb.commands));
    }

    /** Records a blit from this image (TRANSFER_SRC) to `dst` (TRANSFER_DST). */
    method BlitTo(cb: CommandBuffer, dst: Image, srcSubresource: SubresourceLayers,
                  dstSubresource: SubresourceLayers, srcFrom: Offset3D, srcTo: Offset3D,
                  dstFrom: Offset3D, dstTo: Offset3D, filter: Filter)
      modifies cb
      ensures cb.commands == old(cb.commands) +
              [BlitImage(image, TransferSrcOptimal, dst.image, TransferDstOptimal,
                         BlitRegion(srcSubresource, srcFrom, srcTo, dstSubresource, dstFrom, dstTo), filter)]
    {
      cb.Record(BlitImage(image, TransferSrcOptimal, dst.image, TransferDstOptimal,
                          BlitRegion(srcSubresource, srcFrom, srcTo, dstSubresource, dstFrom, dstTo), filter));
    }

    /** The stand-alone blit: the same command in its own one-time command buffer. */
    method BlitToAndSubmit(dst: Image, srcSubresource: SubresourceLayers, dstSubresource: SubresourceLayers,
                           srcFrom: Offset3D, srcTo: Offset3D, dstFrom: Offset3D, dstTo: Offset3D, filter: Filter)
      modifies device
      ensures device.calls == old(device.calls) +
              [SubmitOneTime([BlitImage(image, TransferSrcOptimal, dst.image, TransferDstOptimal,
                 BlitRegion(srcSubresource, srcFrom, srcTo, dstSubresource, dstFrom, dstTo), filter)])]
      ensures device.nextHandle == old(device.nextHandle)
    {
      var cb := new CommandBuffer();
      assert device.calls == old(device.calls);
      BlitTo(cb, dst, srcSubresource, dstSubresource, srcFrom, srcTo, dstFrom, dstTo, filter);
      assert cb.commands == [BlitImage(image, TransferSrcOptimal, dst.image, TransferDstOptimal,
                               BlitRegion(srcSubresource, srcFrom, srcTo, dstSubresource, dstFrom, dstTo), filter)];
      device.Issue(SubmitOneTime(cb.commands));
    }

    /** Records a copy from this image (TRANSFER_SRC) to `dst` (TRANSFER_DST). */
    method CopyTo(cb: CommandBuffer, dst: Image, srcSubresource: SubresourceLayers,
                  dstSubresource: SubresourceLayers, copyExtent: Extent3D)
      modifies cb
      ensures cb.commands == old(cb.commands) +
              [CopyImage(image, TransferSrcOptimal, dst.image, TransferDstOptimal,
                         CopyRegion(srcSubresource, dstSubresource, copyExtent))]
    {
      cb.Record(CopyImage(image, TransferSrcOptimal, dst.image, TransferDstOptimal,
                          CopyRegion(srcSubresource, dstSubresource, copyExtent)));
    }

    /** The stand-alone copy: the same command in its own one-time command buffer. */
    method CopyToAndSubmit(dst: Image, srcSubresource: SubresourceLayers, dstSubresource: SubresourceLayers,
                           copyExtent: Extent3D)
      modifies device
      ensures device.calls == old(device.calls) +
              [SubmitOneTime([CopyImage(image, TransferSrcOptimal, dst.image, TransferDstOptimal,
                                        CopyRegion(srcSubresource, dstSubresource, copyExtent))])]
      ensures device.nextHandle == old(device.nextHandle)
    {
      var cb := new CommandBuffer();
      assert device.calls == old(device.calls);
      CopyTo(cb, dst, srcSubresource, dstSubresource, copyExtent);
      assert cb.commands == [CopyImage(image, TransferSrcOptimal, dst.image, TransferDstOptimal,
                                       CopyRegion(srcSubresource, dstSubresource, copyExtent))];
      device.Issue(SubmitOneTime(cb.commands));
    }

    function MipParamsFor(aspect: Flags, filter: Filter, finalLayout: Layout,
                          finalAccess: Flags, finalStage: Flags): MipParams
    {
      MipParams(image, aspect, filter, mipLevels, arrayLayers, ToInt32(extent.width), ToInt32(extent.height),
                finalLayout, finalAccess, finalStage)
    }

    /** Records the mip chain into `cb`: every level i is blitted from level i-1 at half its extent. */
    method GenerateMipmaps(cb: CommandBuffer, aspect: Flags, filter: Filter, finalLayout: Layout,
                           finalAccess: Flags, finalStage: Flags)
      requires Valid()
      modifies cb
      ensures cb.commands == old(cb.commands) +
              MipChain(MipParamsFor(aspect, filter, finalLayout, finalAccess, finalStage))
    {
      ghost var p := MipParamsFor(aspect, filter, finalLayout, finalAccess, finalStage);
      var range := SubresourceRange(aspect, 0, 1, 0, arrayLayers);
      var mipWidth: int := ToInt32(extent.width);
      var mipHeight: int := ToInt32(extent.height);
      var i: nat := 1;
      while i < mipLevels
        invariant 1 <= i <= mipLevels
        invariant range.aspect == aspect && range.levelCount == 1
        invariant range.baseArrayLayer == 0 && range.layerCount == arrayLayers
        invariant mipWidth == Halved(p.width, i - 1) && mipHeight == Halved(p.height, i - 1)
        invariant cb.commands == old(cb.commands) + MipLoop(p, i)
      {
        range := range.(baseMipLevel := i - 1);
        MemoryBarrier(cb, TransferDstOptimal, TransferSrcOptimal, ACCESS_TRANSFER_WRITE, ACCESS_TRANSFER_READ,
                      STAGE_TRANSFER, STAGE_TRANSFER, range);
        BlitTo(cb, this, SubresourceLayers(aspect, i - 1, 0, arrayLayers), SubresourceLayers(aspect, i, 0, arrayLayers),
               Offset3D(0, 0, 0), Offset3D(mipWidth, mipHeight, 1),
               Offset3D(0, 0, 0), Offset3D(if mipWidth > 1 then mipWidth / 2 else 1,
                                           if mipHeight > 1 then mipHeight / 2 else 1, 1),
               filter);
        MemoryBarrier(cb, TransferSrcOptimal, finalLayout, ACCESS_TRANSFER_READ, finalAccess,
                      STAGE_TRANSFER, finalStage, range);
        if mipWidth > 1 { mipWidth := mipWidth / 2; }
        if mipHeight > 1 { mipHeight := mipHeight / 2; }
        i := i + 1;
      }
      range := range.(baseMipLevel := mipLevels - 1);
      MemoryBarrier(cb, TransferDstOptimal, finalLayout, ACCESS_TRANSFER_WRITE, finalAccess,
                    STAGE_TRANSFER, finalStage, range);
    }

    /** The stand-alone variant: the whole chain in one one-time command buffer. */
    method GenerateMipmapsAndSubmit(aspect: Flags, filter: Filter, finalLayout: Layout,
                                    finalAccess: Flags, finalStage: Flags)
      requires Valid()
      modifies device
      ensures device.calls == old(device.calls) +
              [SubmitOneTime(MipChain(MipParamsFor(aspect, filter, finalLayout, finalAccess, finalStage)))]
      ensures device.nextHandle == old(device.nextHandle)
    {
      var cb := new CommandBuffer();
      assert device.calls == old(device.calls);
      GenerateMipmaps(cb, aspect, filter, finalLayout, finalAccess, finalStage);
      assert cb.commands == MipChain(MipParamsFor(aspect, filter, finalLayout, finalAccess, finalStage));
      device.Issue(SubmitOneTime(cb.commands));
    }

    /** The staging loop of `updateData`: layer i of the data is written at offset i * layerSize. */
    method StageLayers(data: seq<nat>, layerSize: nat)
      modifies device
      ensures device.calls == old(device.calls) + StagingWrites(data, layerSize)
      ensures device.nextHandle == old(device.nextHandle)
    {
      var i := 0;
      while i < |data|
        invariant 0 <= i <= |data|
        invariant device.calls == old(device.calls) + StagingWrites(data[..i], layerSize)
        invariant device.nextHandle == old(device.nextHandle)
      {
        device.Issue(StageLayer(data[i], i * layerSize, layerSize));
        StagingWritesSnoc(data, i, layerSize);
        i := i + 1;
      }
      assert data[..i] == data;
    }

    /** The region loop of `updateData`: one copy region per updated layer. */
    method RegionsFor(layersOffset: nat, updatedLayers: nat, layerSize: nat) returns (regions: seq<BufferImageCopy>)
      ensures regions == UploadRegions(extent, layersOffset, layerSize, updatedLayers)
    {
      regions := [];
      var i := 0;
      while i < updatedLayers
        invariant 0 <= i <= updatedLayers
        invariant regions == UploadRegions(extent, layersOffset, layerSize, i)
      {
        regions := regions + [UploadRegion(extent, layersOffset, layerSize, i)];
        assert regions == UploadRegions(extent, layersOffset, layerSize, i + 1);
        i := i + 1;
      }
    }

    /**
     * Uploads one buffer of pixels per layer into layers [layersOffset, +|data|):
     * stages them back to back, moves every mip of those layers
     * UNDEFINED -> TRANSFER_DST, then copies one region per layer.
     */
    method UpdateData(data: seq<nat>, layersOffset: U32, pixelSize: U32)
      requires Valid()
      requires |data| < U32_MODULUS
      requires UploadFits(layersOffset, |data|, arrayLayers)
      modifies device
      ensures device.calls == old(device.calls) +
              UploadCalls(image, mipLevels, extent, data, layersOffset, pixelSize)
      ensures device.nextHandle == old(device.nextHandle)
    {
      var updatedLayers := |data|;
      var range := SubresourceRange(ASPECT_COLOR, 0, mipLevels, layersOffset, updatedLayers);
      var layerSize := LayerSize(extent, pixelSize);
      ghost var created := old(device.calls) + [CreateStagingBuffer(layerSize * updatedLayers)];
      device.Issue(CreateStagingBuffer(layerSize * updatedLayers));
      StageLayers(data, layerSize);
      assert device.calls == created + StagingWrites(data, layerSize);
      var regions := RegionsFor(layersOffset, updatedLayers, layerSize);
      ghost var staged := device.calls;
      TransitLayout(Undefined, TransferDstOptimal, STAGE_TOP_OF_PIPE, STAGE_TRANSFER, range);
      device.Issue(CopyBufferToImage(image, regions));
      assert device.calls == staged +
        [SubmitOneTime([TransitionBarrier(image, Undefined, TransferDstOptimal, STAGE_TOP_OF_PIPE, STAGE_TRANSFER, range)]),
         CopyBufferToImage(image, regions)];
    }
  }
}
