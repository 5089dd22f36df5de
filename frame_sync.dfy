/**
 * The per-frame queue protocol of the orchestrator: acquire, the rendering
 * submit, the compute submit and present, with their semaphore waits and
 * signals, and a replay of binary-semaphore state over a log of them.
 */
module FrameSync {
  import opened Vk

  datatype Semaphore = ImageAvailable | RenderingFinished | ComputingFinished

  datatype Queue = GraphicsQueue | PresentQueue

  /** What a submit runs: the rendering command buffer, or the compute buffer of one swapchain image. */
  datatype Work = RenderingWork | ComputingWork(imageIndex: nat)

  /** A semaphore wait and the pipeline stage it blocks. */
  datatype Wait = Wait(semaphore: Semaphore, stage: Flags)

  /** One queue operation, as recorded in the orchestrator's queue log. */
  datatype QueueOp =
    | Acquire(signal: Semaphore, imageIndex: nat)
    | Submit(queue: Queue, waits: seq<Wait>, work: Work, signals: seq<Semaphore>)
    | Present(queue: Queue, waitSemaphores: seq<Semaphore>, imageIndex: nat)

  function WaitSemaphores(waits: seq<Wait>): (r: seq<Semaphore>)
    ensures |r| == |waits| && forall k :: 0 <= k < |waits| ==> r[k] == waits[k].semaphore
  {
    seq(|waits|, k requires 0 <= k < |waits| => waits[k].semaphore)
  }

  function Waited(op: QueueOp): seq<Semaphore> {
    match op
    case Acquire(_, _) => []
    case Submit(_, waits, _, _) => WaitSemaphores(waits)
    case Present(_, waitSemaphores, _) => waitSemaphores
  }

  function Signalled(op: QueueOp): seq<Semaphore> {
    match op
    case Acquire(signal, _) => [signal]
    case Submit(_, _, _, signals) => signals
    case Present(_, _, _) => []
  }

  /** The semaphores a sequence names. */
  function SetOf(s: seq<Semaphore>): (r: set<Semaphore>)
    ensures forall x :: x in r <==> x in s
    decreases |s|
  {
    if s == [] then {} else {s[0]} + SetOf(s[1..])
  }

  predicate NoDuplicates(s: seq<Semaphore>) {
    forall i, j :: 0 <= i < j < |s| ==> s[i] != s[j]
  }

  /**
   * Binary-semaphore semantics: `pending` holds the semaphores signalled and
   * not yet waited on. An operation may wait only on pending semaphores (each
   * once) and, after its waits, may signal only semaphores that are not
   * pending (each once). None is a protocol violation.
   */
  function Step(pending: set<Semaphore>, op: QueueOp): Option<set<Semaphore>> {
    var w := Waited(op);
    var sg := Signalled(op);
    if (forall s :: s in w ==> s in pending) && NoDuplicates(w) then
      var after := pending - SetOf(w);
      if (forall s :: s in sg ==> s !in after) && NoDuplicates(sg) then Some(after + SetOf(sg))
      else None
    else None
  }

  /** An accepted step waited only on pending semaphores and leaves the rest pending, plus what it signalled. */
  lemma StepAccepted(pending: set<Semaphore>, op: QueueOp)
    requires Step(pending, op).Some?
    ensures forall s :: s in Waited(op) ==> s in pending
    ensures Step(pending, op).value == pending - SetOf(Waited(op)) + SetOf(Signalled(op))
  {
  }

  function Replay(pending: set<Semaphore>, ops: seq<QueueOp>): Option<set<Semaphore>>
    decreases |ops|
  {
    if ops == [] then Some(pending)
    else
      match Step(pending, ops[0])
      case None => None
      case Some(next) => Replay(next, ops[1..])
  }

  lemma {:induction false} ReplayAppend(pending: set<Semaphore>, a: seq<QueueOp>, b: seq<QueueOp>)
    ensures Replay(pending, a + b) ==
            (match Replay(pending, a) case None => None case Some(mid) => Replay(mid, b))
    decreases |a|
  {
    if a == [] {
      assert a + b == b;
    } else {
      assert (a + b)[0] == a[0];
      assert (a + b)[1..] == a[1..] + b;
      match Step(pending, a[0])
      case None =>
      case Some(next) => ReplayAppend(next, a[1..], b);
    }
  }

  /**
   * Every wait in a replayable log is on a semaphore that was pending at the
   * start or is signalled by an earlier operation of the log.
   */
  lemma {:induction false} ReplayWaitsFollowSignals(pending: set<Semaphore>, ops: seq<QueueOp>, k: nat, s: Semaphore)
    requires Replay(pending, ops).Some?
    requires k < |ops| && s in Waited(ops[k])
    ensures s in pending || exists j :: 0 <= j < k && s in Signalled(ops[j])
    decreases |ops|
  {
    var step := Step(pending, ops[0]);
    assert step.Some? && Replay(step.value, ops[1..]).Some?;
    StepAccepted(pending, ops[0]);
    var next := step.value;
    if k == 0 {
      assert s in pending;
    } else {
      assert ops[1..][k - 1] == ops[k];
      ReplayWaitsFollowSignals(next, ops[1..], k - 1, s);
      if s !in next {
        var j :| 0 <= j < k - 1 && s in Signalled(ops[1..][j]);
        assert ops[j + 1] == ops[1..][j];
      } else if s !in pending {
        assert s in SetOf(Signalled(ops[0]));
      }
    }
  }

  /** The four queue operations of one frame that acquired swapchain image `i`. */
  function FrameOps(i: nat): seq<QueueOp> {
    [ Acquire(ImageAvailable, i),
      Submit(GraphicsQueue, [], RenderingWork, [RenderingFinished]),
      Submit(GraphicsQueue, [Wait(RenderingFinished, STAGE_COMPUTE_SHADER), Wait(ImageAvailable, STAGE_COMPUTE_SHADER)],
             ComputingWork(i), [ComputingFinished]),
      Present(PresentQueue, [ComputingFinished], i) ]
  }

  /**
   * The wiring of one frame: rendering waits on nothing and signals
   * renderingFinished; compute waits on renderingFinished and imageAvailable,
   * both at the compute stage, runs the buffer of the acquired image and
   * signals computingFinished; present waits only on computingFinished. Each
   * semaphore has exactly one signaller in the frame, and it comes before the
   * operation that waits on it.
   */
  lemma FrameWiring(i: nat)
    ensures |FrameOps(i)| == 4
    ensures Waited(FrameOps(i)[1]) == [] && Signalled(FrameOps(i)[1]) == [RenderingFinished]
    ensures FrameOps(i)[2].Submit? && FrameOps(i)[2].work == ComputingWork(i)
    ensures Waited(FrameOps(i)[2]) == [RenderingFinished, ImageAvailable]
    ensures forall w :: w in FrameOps(i)[2].waits ==> w.stage == STAGE_COMPUTE_SHADER
    ensures Signalled(FrameOps(i)[2]) == [ComputingFinished]
    ensures Waited(FrameOps(i)[3]) == [ComputingFinished] && FrameOps(i)[3].imageIndex == i
    ensures forall j :: 0 <= j < 4 ==> (ImageAvailable in Signalled(FrameOps(i)[j]) <==> j == 0)
    ensures forall j :: 0 <= j < 4 ==> (RenderingFinished in Signalled(FrameOps(i)[j]) <==> j == 1)
    ensures forall j :: 0 <= j < 4 ==> (ComputingFinished in Signalled(FrameOps(i)[j]) <==> j == 2)
  {
    assert Waited(FrameOps(i)[2]) == [RenderingFinished, ImageAvailable];
  }

  /** One frame leaves no semaphore pending, whatever image it acquired. */
  lemma FrameBalanced(i: nat)
    ensures Replay({}, FrameOps(i)) == Some({})
  {
    var f := FrameOps(i);
    var p0: set<Semaphore> := {};
    var p1 := {ImageAvailable};
    var p2 := {ImageAvailable, RenderingFinished};
    var p3 := {ComputingFinished};
    assert SetOf([]) == p0 && SetOf([ImageAvailable]) == p1;
    assert p0 - SetOf([]) + SetOf([ImageAvailable]) == p1;
    assert Step(p0, f[0]) == Some(p1);
    assert SetOf([RenderingFinished]) == {RenderingFinished};
    assert p1 - SetOf([]) + SetOf([RenderingFinished]) == p2;
    assert Step(p1, f[1]) == Some(p2);
    assert Waited(f[2]) == [RenderingFinished, ImageAvailable];
    assert SetOf([RenderingFinished, ImageAvailable]) == p2;
    assert SetOf([ComputingFinished]) == p3;
    assert p2 - SetOf(Waited(f[2])) + SetOf([ComputingFinished]) == p3;
    assert Step(p2, f[2]) == Some(p3);
    assert p3 - SetOf([ComputingFinished]) + SetOf([]) == p0;
    assert Step(p3, f[3]) == Some(p0);
    assert f[1..][1..] == f[2..] && f[2..][1..] == f[3..] && f[3..][1..] == [];
    assert Replay(p3, f[3..]) == Replay(p0, []);
    assert Replay(p2, f[2..]) == Replay(p3, f[3..]);
    assert Replay(p1, f[1..]) == Replay(p2, f[2..]);
    assert Replay(p0, f) == Replay(p1, f[1..]);
  }

  /** The queue log of frames that acquired images `images`, one after another. */
  function Frames(images: seq<nat>): seq<QueueOp>
    decreases |images|
  {
    if images == [] then [] else Frames(images[..|images| - 1]) + FrameOps(images[|images| - 1])
  }

  /** Any run of frames is a legal binary-semaphore protocol that returns to no pending semaphore. */
  lemma {:induction false} FramesBalanced(images: seq<nat>)
    ensures Replay({}, Frames(images)) == Some({})
    decreases |images|
  {
    if images != [] {
      FramesBalanced(images[..|images| - 1]);
      ReplayAppend({}, Frames(images[..|images| - 1]), FrameOps(images[|images| - 1]));
      FrameBalanced(images[|images| - 1]);
    }
  }
}
