/**
 * Frame handling of the Desktop Duplication capture (DesktopDuplicator.cs):
 * how the constructor maps the failures of the graphics stack to errors,
 * how Capture classifies the result of acquiring a frame, allocates its
 * staging texture once and always unmaps it, and how ProcessFrame copies
 * the mapped texture into the frame's bitmap row by row.
 *
 * Every Direct3D/DXGI call is an input: the HRESULT it throws, if any,
 * the bytes of the mapped texture and its row pitch, the bitmap the frame
 * locks. The per-row Parallel.For is a sequential loop: its rows are
 * disjoint.
 */
module DesktopDuplication {
  import opened Wrappers

  // ---------------------------------------------------------------------------
  // Result codes and errors

  /** A 32-bit HRESULT, as a signed value. */
  type HResult = int

  /** The severity bit is set: the code reports a failure. */
  predicate Failure(hr: HResult) {
    hr < 0
  }

  /** DXGI_ERROR_WAIT_TIMEOUT */
  const WaitTimeout: HResult := 0x887A_0027 - 0x1_0000_0000
  /** DXGI_ERROR_NOT_CURRENTLY_AVAILABLE */
  const NotCurrentlyAvailable: HResult := 0x887A_0022 - 0x1_0000_0000
  /** DXGI_ERROR_UNSUPPORTED */
  const Unsupported: HResult := 0x887A_0004 - 0x1_0000_0000

  /** The exceptions the duplicator raises. */
  datatype DuplicationError =
    | AdapterNotFound      // "Could not find the specified graphics card adapter."
    | OutputNotFound       // "Could not find the specified output device."
    | MaxApplications      // "There is already the maximum number of applications ..."
    | NotSupported         // NotSupportedException: "Desktop Duplication is not supported ..."
    | AcquireFailed        // "Failed to acquire next frame."
    | ReleaseFailed        // "Failed to release frame."
    | Raw(code: HResult)   // a SharpDXException that is not caught
    | FrameFailed          // an exception of the frame factory or of locking the bitmap

  /**
   * The outcome of the constructor when each step either succeeds (None)
   * or throws a SharpDXException with the given code: any failure to get
   * the adapter or the output has its own message; a failing device
   * creation, QueryInterface<Output1> or read of the output's description
   * propagates unchanged; of the duplication failures, NotCurrentlyAvailable
   * and Unsupported are translated and any other code propagates unchanged.
   */
  function Open(adapter: Option<HResult>, device: Option<HResult>, output: Option<HResult>,
                output1: Option<HResult>, duplicate: Option<HResult>): (r: Result<(), DuplicationError>)
    ensures r.Ok? <==> adapter.None? && device.None? && output.None? && output1.None? && duplicate.None?
    ensures adapter.Some? ==> r == Err(AdapterNotFound)
    ensures adapter.None? && device.Some? ==> r == Err(Raw(device.value))
    ensures adapter.None? && device.None? && output.Some? ==> r == Err(OutputNotFound)
    ensures adapter.None? && device.None? && output.None? && output1.Some? ==> r == Err(Raw(output1.value))
    ensures r == Err(MaxApplications) <==>
      adapter.None? && device.None? && output.None? && output1.None? && duplicate == Some(NotCurrentlyAvailable)
    ensures r == Err(NotSupported) <==>
      adapter.None? && device.None? && output.None? && output1.None? && duplicate == Some(Unsupported)
    ensures adapter.None? && device.None? && output.None? && output1.None? && duplicate.Some? ==>
      (duplicate.value != NotCurrentlyAvailable && duplicate.value != Unsupported ==> r == Err(Raw(duplicate.value)))
  {
    if adapter.Some? then Err(AdapterNotFound)
    else if device.Some? then Err(Raw(device.value))
    else if output.Some? then Err(OutputNotFound)
    else if output1.Some? then Err(Raw(output1.value))
    else match duplicate
      case None => Ok(())
      case Some(code) =>
        if code == NotCurrentlyAvailable then Err(MaxApplications)
        else if code == Unsupported then Err(NotSupported)
        else Err(Raw(code))
  }

  /** What AcquireNextFrame does: hands out a frame, or throws with a code. */
  datatype Acquire =
    | Acquired(pointerVisible: bool)
    | AcquireThrows(code: HResult)

  /** How an acquire is handled: a new frame, the repeat sentinel, or an exception. */
  datatype AcquireVerdict = Proceed | RepeatFrame | Throw(error: DuplicationError)

  /** The two exception filters around AcquireNextFrame, tried in order. */
  function ClassifyAcquire(a: Acquire): (v: AcquireVerdict)
    ensures v == RepeatFrame <==> a == AcquireThrows(WaitTimeout)
    ensures v == Proceed <==> a.Acquired?
    ensures v == Throw(AcquireFailed) <==> a.AcquireThrows? && a.code != WaitTimeout && Failure(a.code)
    ensures a.AcquireThrows? && !Failure(a.code) ==> v == Throw(Raw(a.code))
  {
    match a
    case Acquired(_) => Proceed
    case AcquireThrows(code) =>
      if code == WaitTimeout then RepeatFrame
      else if Failure(code) then Throw(AcquireFailed)
      else Throw(Raw(code))
  }

  /** A wait timeout is itself a failure code, so the order of the filters matters: it is caught first. */
  lemma TimeoutIsNotAnError()
    ensures Failure(WaitTimeout)
    ensures ClassifyAcquire(AcquireThrows(WaitTimeout)) == RepeatFrame
  {
  }

  /** ReleaseFrame: a failure code is an error; any other exception is swallowed. */
  function ReleaseOutcome(release: Option<HResult>): (r: Option<DuplicationError>)
    ensures r.Some? <==> release.Some? && Failure(release.value)
    ensures r.Some? ==> r.value == ReleaseFailed
  {
    match release
    case Some(code) => if Failure(code) then Some(ReleaseFailed) else None
    case None => None
  }

  // ---------------------------------------------------------------------------
  // Cursor

  datatype Point = Point(x: int, y: int)

  /** The capture rectangle, in desktop coordinates. */
  datatype Rect = Rect(x: int, y: int, width: nat, height: nat)

  /** The transformation MouseCursor.Draw applies: desktop coordinates into the captured image. */
  function ToFrame(p: Point, r: Rect): (q: Point)
    ensures q.x + r.x == p.x && q.y + r.y == p.y
  {
    Point(p.x - r.x, p.y - r.y)
  }

  // ---------------------------------------------------------------------------
  // The row copy

  /** The offset of row y in a buffer whose rows are step bytes apart. */
  function RowStart(y: nat, step: nat): nat {
    y * step
  }

  /**
   * The buffer b with the n bytes of src from offset from written at offset
   * to; a byte that would come from beyond the end of src is left as it was
   * (that never happens to a copy that fits).
   */
  function WithRow(b: seq<bv8>, src: seq<bv8>, from: nat, to: nat, n: nat): (r: seq<bv8>)
    ensures |r| == |b|
  {
    seq(|b|, k requires 0 <= k < |b| => if to <= k < to + n && from + k - to < |src| then src[from + k - to] else b[k])
  }

  /** The copy is in bounds: the rows of the bitmap do not overlap and both buffers hold every row. */
  predicate Fits(srcLength: nat, pitch: nat, dstLength: nat, stride: nat, rowBytes: nat, rows: nat) {
    rowBytes <= stride &&
    (rows == 0 || (RowStart(rows - 1, pitch) + rowBytes <= srcLength && RowStart(rows - 1, stride) + rowBytes <= dstLength))
  }

  lemma RowMono(y: nat, z: nat, step: nat)
    requires y <= z
    ensures RowStart(y, step) <= RowStart(z, step)
  {
  }

  /** Rows further down start after the whole of an earlier row. */
  lemma RowsApart(y: nat, z: nat, step: nat)
    requires y < z
    ensures RowStart(y, step) + step <= RowStart(z, step)
  {
    RowMono(y + 1, z, step);
  }

  /** Every row of a copy that fits lies inside both buffers. */
  lemma RowFits(srcLength: nat, pitch: nat, dstLength: nat, stride: nat, rowBytes: nat, rows: nat, y: nat)
    requires Fits(srcLength, pitch, dstLength, stride, rowBytes, rows) && y < rows
    ensures RowStart(y, pitch) + rowBytes <= srcLength && RowStart(y, stride) + rowBytes <= dstLength
  {
    RowMono(y, rows - 1, pitch);
    RowMono(y, rows - 1, stride);
  }

  /**
   * The bitmap after copying the first rows rows of rowBytes bytes from the
   * mapped texture (rows pitch bytes apart) into a bitmap whose rows are
   * stride bytes apart.
   */
  function Copied(before: seq<bv8>, src: seq<bv8>, pitch: nat, stride: nat, rowBytes: nat, rows: nat): (r: seq<bv8>)
    ensures |r| == |before|
  {
    if rows == 0 then before
    else WithRow(Copied(before, src, pitch, stride, rowBytes, rows - 1), src,
                 RowStart(rows - 1, pitch), RowStart(rows - 1, stride), rowBytes)
  }

  /** The byte at column i of row y, once its row and every later row are copied, if it lies in both buffers. */
  lemma {:induction false} CopiedAt(before: seq<bv8>, src: seq<bv8>, pitch: nat, stride: nat, rowBytes: nat, rows: nat,
                                    y: nat, i: nat)
    requires rowBytes <= stride && y < rows && i < rowBytes
    requires RowStart(y, pitch) + i < |src| && RowStart(y, stride) + i < |before|
    ensures Copied(before, src, pitch, stride, rowBytes, rows)[RowStart(y, stride) + i] == src[RowStart(y, pitch) + i]
    decreases rows
  {
    var k := RowStart(y, stride) + i;
    var to := RowStart(rows - 1, stride);
    if y < rows - 1 {
      RowsApart(y, rows - 1, stride);
      assert k < to;
      CopiedAt(before, src, pitch, stride, rowBytes, rows - 1, y, i);
    }
  }

  /** Each copied row holds exactly the texture's row at the same column, byte for byte. */
  lemma CopiedRow(before: seq<bv8>, src: seq<bv8>, pitch: nat, stride: nat, rowBytes: nat, rows: nat,
                  y: nat, i: nat)
    requires Fits(|src|, pitch, |before|, stride, rowBytes, rows)
    requires y < rows && i < rowBytes
    ensures RowStart(y, pitch) + i < |src| && RowStart(y, stride) + i < |before|
    ensures Copied(before, src, pitch, stride, rowBytes, rows)[RowStart(y, stride) + i] == src[RowStart(y, pitch) + i]
  {
    RowFits(|src|, pitch, |before|, stride, rowBytes, rows, y);
    CopiedAt(before, src, pitch, stride, rowBytes, rows, y, i);
  }

  /** No byte outside the copied rows changes. */
  lemma {:induction false} CopiedElsewhere(before: seq<bv8>, src: seq<bv8>, pitch: nat, stride: nat, rowBytes: nat,
                                           rows: nat, k: nat)
    requires k < |before|
    requires forall y: nat :: y < rows ==> !(RowStart(y, stride) <= k < RowStart(y, stride) + rowBytes)
    ensures Copied(before, src, pitch, stride, rowBytes, rows)[k] == before[k]
    decreases rows
  {
    if rows > 0 {
      assert !(RowStart(rows - 1, stride) <= k < RowStart(rows - 1, stride) + rowBytes);
      CopiedElsewhere(before, src, pitch, stride, rowBytes, rows - 1, k);
    }
  }

  /** Utilities.CopyMemory: n bytes of src from srcOffset to dst at dstOffset. */
  method CopyMemory(dst: array<bv8>, dstOffset: nat, src: seq<bv8>, srcOffset: nat, n: nat)
    requires dstOffset + n <= dst.Length && srcOffset + n <= |src|
    modifies dst
    ensures dst[..] == WithRow(old(dst[..]), src, srcOffset, dstOffset, n)
  {
    for j := 0 to n
      invariant forall k :: 0 <= k < dst.Length ==>
        dst[k] == if dstOffset <= k < dstOffset + j then src[srcOffset + k - dstOffset] else old(dst[k])
    {
      dst[dstOffset + j] := src[srcOffset + j];
    }
  }

  /**
   * The copy of ProcessFrame: for every row y below the capture height,
   * rowBytes (the capture width times 4) bytes from the texture at
   * y * pitch to the bitmap at y * stride.
   */
  method CopyRows(src: seq<bv8>, pitch: nat, dst: array<bv8>, stride: nat, rowBytes: nat, height: nat)
    requires Fits(|src|, pitch, dst.Length, stride, rowBytes, height)
    modifies dst
    ensures dst[..] == Copied(old(dst[..]), src, pitch, stride, rowBytes, height)
  {
    ghost var before := dst[..];
    for y := 0 to height
      invariant dst[..] == Copied(before, src, pitch, stride, rowBytes, y)
    {
      RowFits(|src|, pitch, dst.Length, stride, rowBytes, height, y);
      CopyMemory(dst, RowStart(y, stride), src, RowStart(y, pitch), rowBytes);
    }
  }

  // ---------------------------------------------------------------------------
  // The duplicator object

  /** What Capture hands back: the repeat sentinel, the frame (noting whether the cursor was drawn), or an exception. */
  datatype CaptureResult =
    | Repeat
    | FrameReady(cursorDrawn: bool)
    | Failed(error: DuplicationError)

  /** The bitmap of the frame as Frame.Lock returns it. */
  datatype Lock =
    | Locked(bits: array<bv8>, stride: nat)
    | NullLock
    | LockThrows

  class DesktopDuplicator {
    const rect: Rect
    const includeCursor: bool
    var timeout: int
    /** The staging texture has been created (_desktopImageTexture is not null). */
    var hasTexture: bool
    /** How many staging textures were created. */
    var texturesCreated: nat
    /** The pointer visibility of the last acquired frame (_frameInfo). */
    var pointerVisible: bool
    /** The staging texture is mapped for reading. */
    var mapped: bool

    constructor (r: Rect, includeCursor: bool)
      ensures rect == r && this.includeCursor == includeCursor
      ensures !hasTexture && texturesCreated == 0 && !mapped
    {
      rect := r;
      this.includeCursor := includeCursor;
      timeout := 0;
      hasTexture, texturesCreated := false, 0;
      pointerVisible, mapped := false, false;
    }

    /** The lazily created staging texture. */
    method EnsureTexture()
      modifies this
      ensures hasTexture && texturesCreated == old(texturesCreated) + (if old(hasTexture) then 0 else 1)
      ensures pointerVisible == old(pointerVisible) && mapped == old(mapped) && timeout == old(timeout)
    {
      if !hasTexture {
        hasTexture := true;
        texturesCreated := texturesCreated + 1;
      }
    }

    /**
     * One Capture: create the staging texture if there is none, acquire the
     * next frame, copy it into the staging texture, release it, map the
     * texture, process the frame (lock the bitmap, copy the rows, draw the
     * cursor) and unmap the texture whatever happened.
     */
    method Capture(acquire: Acquire, release: Option<HResult>, texture: seq<bv8>, pitch: nat,
                   frameFails: bool, lock: Lock) returns (result: CaptureResult)
      requires !mapped
      requires lock.Locked? ==> ValidCopy(texture, pitch, lock.stride, lock.bits.Length)
      modifies this, if lock.Locked? then {lock.bits} else {}
      ensures hasTexture && texturesCreated == old(texturesCreated) + (if old(hasTexture) then 0 else 1)
      ensures !mapped && timeout == old(timeout)
      ensures result == Repeat <==> ClassifyAcquire(acquire) == RepeatFrame
      ensures ClassifyAcquire(acquire).Throw? ==> result == Failed(ClassifyAcquire(acquire).error)
      ensures acquire.Acquired? && ReleaseOutcome(release).Some? ==> result == Failed(ReleaseFailed)
      ensures acquire.Acquired? ==> pointerVisible == acquire.pointerVisible
      ensures result.FrameReady? <==>
        acquire.Acquired? && ReleaseOutcome(release).None? && !frameFails && !lock.LockThrows?
      ensures result.FrameReady? ==> result.cursorDrawn == (includeCursor && acquire.pointerVisible)
      ensures lock.Locked? && result.FrameReady? ==>
        lock.bits[..] == Copied(old(lock.bits[..]), texture, pitch, lock.stride, rect.width * 4, rect.height)
      ensures lock.Locked? && !result.FrameReady? ==> lock.bits[..] == old(lock.bits[..])
    {
      EnsureTexture();
      match ClassifyAcquire(acquire) {
        case RepeatFrame => return Repeat;
        case Throw(e) => return Failed(e);
        case Proceed =>
      }
      pointerVisible := acquire.pointerVisible;
      match ReleaseOutcome(release) {
        case Some(e) => return Failed(e);
        case None =>
      }
      mapped := true;
      if frameFails || lock.LockThrows? {
        result := Failed(FrameFailed);
      } else {
        var drawn := ProcessFrame(texture, pitch, lock);
        result := FrameReady(drawn);
      }
      mapped := false;
    }

    /** The copy, if the bitmap could be locked, then the cursor. */
    method ProcessFrame(texture: seq<bv8>, pitch: nat, lock: Lock) returns (cursorDrawn: bool)
      requires !lock.LockThrows?
      requires lock.Locked? ==> ValidCopy(texture, pitch, lock.stride, lock.bits.Length)
      modifies if lock.Locked? then {lock.bits} else {}
      ensures cursorDrawn == (includeCursor && pointerVisible)
      ensures lock.Locked? ==>
        lock.bits[..] == Copied(old(lock.bits[..]), texture, pitch, lock.stride, rect.width * 4, rect.height)
    {
      match lock {
        case Locked(bits, stride) =>
          CopyRows(texture, pitch, bits, stride, rect.width * 4, rect.height);
        case NullLock =>
      }
      cursorDrawn := includeCursor && pointerVisible;
    }

    /** The texture and bitmap are large enough for the rows of the capture rectangle. */
    predicate ValidCopy(texture: seq<bv8>, pitch: nat, stride: nat, length: nat)
      reads this
    {
      Fits(|texture|, pitch, length, stride, rect.width * 4, rect.height)
    }

    /**
     * Dispose of the duplication, the staging texture (if any) and the
     * device, in that order; the first one that throws ends the sequence and
     * the exception is swallowed. Reported: how many of the three steps
     * completed, a missing texture (skipped by `?.`) counting as completed.
     */
    method Dispose(fails: seq<bool>) returns (stepsCompleted: nat)
      requires |fails| == 3
      modifies this
      ensures stepsCompleted <= 3
      ensures stepsCompleted == FirstFailure(RequiredDisposals(old(hasTexture), fails))
      ensures hasTexture == old(hasTexture) && texturesCreated == old(texturesCreated)
      ensures mapped == old(mapped) && pointerVisible == old(pointerVisible) && timeout == old(timeout)
    {
      var steps := RequiredDisposals(hasTexture, fails);
      stepsCompleted := 0;
      while stepsCompleted < |steps| && !steps[stepsCompleted]
        invariant stepsCompleted <= |steps|
        invariant forall j :: 0 <= j < stepsCompleted ==> !steps[j]
        decreases |steps| - stepsCompleted
      {
        stepsCompleted := stepsCompleted + 1;
      }
      FirstFailureIs(steps, stepsCompleted);
    }
  }

  /** The disposals that are attempted: a missing texture is skipped (?.), it never fails. */
  function RequiredDisposals(hasTexture: bool, fails: seq<bool>): (steps: seq<bool>)
    requires |fails| == 3
    ensures |steps| == 3 && steps[0] == fails[0] && steps[2] == fails[2]
    ensures steps[1] == (hasTexture && fails[1])
  {
    [fails[0], hasTexture && fails[1], fails[2]]
  }

  /** The number of steps that complete before the first that throws. */
  function FirstFailure(steps: seq<bool>): (n: nat)
    ensures n <= |steps| && forall j :: 0 <= j < n ==> !steps[j]
    ensures n < |steps| ==> steps[n]
  {
    if steps == [] || steps[0] then 0
    else
      var m := FirstFailure(steps[1..]);
      assert forall j :: 1 <= j < m + 1 ==> steps[j] == steps[1..][j - 1];
      m + 1
  }

  lemma FirstFailureIs(steps: seq<bool>, n: nat)
    requires n <= |steps| && forall j :: 0 <= j < n ==> !steps[j]
    requires n < |steps| ==> steps[n]
    ensures FirstFailure(steps) == n
  {
  }
}
