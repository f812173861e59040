/**
 * Saving a painted mask (src/ui/inpainter-canvas.tsx): the per-pixel
 * alpha compositing of `applyMask` over an RGBA byte buffer, and the
 * `saveMask` step that stores the result on the inpainting node.
 *
 * Rendering the image and the brush strokes onto their canvases is not
 * modelled: the two RGBA buffers are parameters, and so is the PNG
 * encoder behind `toDataURL`.
 */
module InpainterCanvas {
  import opened Wrappers
  import opened Types
  import opened Binary
  import opened DataUrl
  import opened Model

  const EditorMissingMessage := "Editor not initialized"

  /** The exact product `originalAlpha * (255 - maskAlpha)`, which the division by 255 then rounds. */
  function Scaled(originalAlpha: byte, maskAlpha: byte): (n: int)
    ensures n == (originalAlpha as int) * (255 - maskAlpha as int)
    ensures 0 <= n <= 255 * (originalAlpha as int)
    ensures maskAlpha == 0 ==> n == 255 * (originalAlpha as int)
    ensures maskAlpha == 255 ==> n == 0
  {
    var a := originalAlpha as int;
    var k := 255 - maskAlpha as int;
    assert 0 <= k <= 255;
    assert 0 <= a * k <= a * 255 by {
      assert a * k == k * a;
      assert a * 255 - a * k == a * (255 - k);
    }
    a * k
  }

  /**
   * The alpha `originalAlpha * (1 - maskAlpha / 255)` stored into a
   * `Uint8ClampedArray`, which rounds to the nearest integer (no value
   * lies half way, since 255 is odd).
   */
  function Blend(originalAlpha: byte, maskAlpha: byte): (r: byte)
    ensures r <= originalAlpha
    ensures maskAlpha == 0 ==> r == originalAlpha
    ensures maskAlpha == 255 ==> r == 0
  {
    var n := Scaled(originalAlpha, maskAlpha);
    ((n + 127) / 255) as byte
  }

  /** The stored alpha is the integer nearest to the exact product divided by 255. */
  lemma BlendRoundsToNearest(originalAlpha: byte, maskAlpha: byte)
    ensures var r := Blend(originalAlpha, maskAlpha) as int;
            255 * r - 127 <= Scaled(originalAlpha, maskAlpha) <= 255 * r + 127
  {
  }

  /** The buffer `applyMask` leaves behind: every fourth byte (the alpha) blended with the mask's alpha. */
  function Composite(image: seq<byte>, mask: seq<byte>): (r: seq<byte>)
    requires |mask| == |image|
    ensures |r| == |image|
    ensures forall i :: 0 <= i < |r| && i % 4 != 3 ==> r[i] == image[i]
    ensures forall i :: 0 <= i < |r| && i % 4 == 3 ==> r[i] == Blend(image[i], mask[i])
  {
    seq(|image|, i requires 0 <= i < |image| => if i % 4 == 3 then Blend(image[i], mask[i]) else image[i])
  }

  /** Compositing never makes a pixel more opaque: a transparent pixel stays transparent. */
  lemma CompositeNeverAddsOpacity(image: seq<byte>, mask: seq<byte>, i: nat)
    requires |mask| == |image| && i < |image| && i % 4 == 3
    ensures Composite(image, mask)[i] <= image[i]
    ensures image[i] == 0 ==> Composite(image, mask)[i] == 0
  {
  }

  /** With no brush stroke anywhere (all mask alphas zero) the image comes back unchanged. */
  lemma EmptyMaskKeepsImage(image: seq<byte>, mask: seq<byte>)
    requires |mask| == |image|
    requires forall i :: 0 <= i < |mask| && i % 4 == 3 ==> mask[i] == 0
    ensures Composite(image, mask) == image
  {
  }

  /** Where the strokes are fully opaque the result is fully transparent. */
  lemma OpaqueStrokeClearsPixel(image: seq<byte>, mask: seq<byte>, i: nat)
    requires |mask| == |image| && i < |image| && i % 4 == 3 && mask[i] == 255
    ensures Composite(image, mask)[i] == 0
  {
  }

  /** Fully opaque strokes everywhere leave every alpha byte at zero, whatever the image. */
  lemma FullStrokesClearAlpha(image: seq<byte>, mask: seq<byte>)
    requires |mask| == |image|
    requires forall i :: 0 <= i < |mask| && i % 4 == 3 ==> mask[i] == 255
    ensures forall i :: 0 <= i < |image| && i % 4 == 3 ==> Composite(image, mask)[i] == 0
  {
  }

  /** `Composite` on the bytes before `n`, the original bytes from `n` on: the buffer part way through `applyMask`. */
  ghost function CompositedUpTo(image: seq<byte>, mask: seq<byte>, n: nat): (r: seq<byte>)
    requires |mask| == |image|
    ensures |r| == |image|
  {
    seq(|image|, j requires 0 <= j < |image| => if j < n && j % 4 == 3 then Blend(image[j], mask[j]) else image[j])
  }

  /** Blending the alpha byte of the pixel at `i` moves the boundary past that pixel. */
  lemma CompositedPixel(image: seq<byte>, mask: seq<byte>, i: nat)
    requires |mask| == |image| && i % 4 == 0 && i + 3 < |image|
    ensures CompositedUpTo(image, mask, i)[i + 3] == image[i + 3]
    ensures CompositedUpTo(image, mask, i)[i + 3 := Blend(image[i + 3], mask[i + 3])]
            == CompositedUpTo(image, mask, i + 4)
  {
    assert (i + 1) % 4 == 1 && (i + 2) % 4 == 2 && (i + 3) % 4 == 3;
  }

  /** `applyMask(width, height, target, mask)`: composites the strokes' alpha into the image buffer in place. */
  method ApplyMask(width: nat, height: nat, target: array<byte>, mask: array<byte>)
    requires target != mask
    requires target.Length == 4 * (width * height) && mask.Length == target.Length
    modifies target
    ensures target[..] == Composite(old(target[..]), mask[..])
  {
    ghost var image := target[..];
    var i := 0;
    while i < target.Length
      invariant 0 <= i <= target.Length && i % 4 == 0
      invariant target[..] == CompositedUpTo(image, mask[..], i)
    {
      CompositedPixel(image, mask[..], i);
      target[i + 3] := Blend(target[i + 3], mask[i + 3]);
      i := i + 4;
    }
    assert target[..] == Composite(image, mask[..]);
  }

  /**
   * `saveMask()`: without an editor it throws; otherwise it composites the
   * strokes into the image, encodes it, strips the data-URL prefix, stores
   * the result on the inpainting node being edited and closes the editor.
   * A missing `blockId` reads as `undefined`, which names no node.
   */
  method SaveMask(app: AppState, editorReady: bool, width: nat, height: nat,
                  image: array<byte>, strokes: array<byte>, toDataUrl: seq<byte> -> string)
    returns (c: Completion)
    requires app.Valid()
    requires image != strokes
    requires image.Length == 4 * (width * height) && strokes.Length == image.Length
    modifies app, image
    ensures app.Valid()
    ensures !editorReady ==> c == Thrown(EditorMissingMessage) && image[..] == old(image[..])
                             && app.nodes == old(app.nodes) && app.inpainter == old(app.inpainter)
    ensures editorReady ==> image[..] == Composite(old(image[..]), strokes[..])
    ensures editorReady && old(app.inpainter.blockId).None? ==>
              c == Thrown(NotInpaintingMessage("undefined"))
              && app.nodes == old(app.nodes) && app.inpainter == old(app.inpainter)
    ensures editorReady && old(app.inpainter.blockId).Some? ==>
              var id := old(app.inpainter.blockId).value;
              var k := FirstIndex(old(app.nodes), id);
              var maskB64 := StripPngPrefix(toDataUrl(image[..]));
              if k.Some? && old(app.nodes)[k.value].data.InpaintingData? then
                c == Normal
                && app.nodes == old(app.nodes)[k.value := Node(id, MaskReplaced(old(app.nodes)[k.value].data, maskB64))]
                && app.inpainter == old(app.inpainter).(visible := false)
              else
                c == Thrown(NotInpaintingMessage(id)) && app.nodes == old(app.nodes) && app.inpainter == old(app.inpainter)
    ensures app.edges == old(app.edges) && app.modelSettings == old(app.modelSettings) && app.notices == old(app.notices)
    ensures app.storedApiKeys == old(app.storedApiKeys) && app.legacyApiKey == old(app.legacyApiKey)
    ensures app.hasFlowInstance == old(app.hasFlowInstance)
  {
    if !editorReady {
      return Thrown(EditorMissingMessage);
    }
    ApplyMask(width, height, image, strokes);
    var maskB64 := StripPngPrefix(toDataUrl(image[..]));
    if app.inpainter.blockId.None? {
      return Thrown(NotInpaintingMessage("undefined"));
    }
    c := app.UpdateInpaintingMask(app.inpainter.blockId.value, maskB64);
    if c.Normal? {
      app.inpainter := app.inpainter.(visible := false);
    }
  }
}
