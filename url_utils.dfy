/** `extractOriginalIds`: the legacy IIIF Presentation 2.0 identifiers of a canvas, read from
    the target of its first 'painting' annotation. */
module UrlUtils {
  import opened Common
  import opened Types

  datatype OriginalIds = OriginalIds(originalCanvasId: string, originalManifestId: string)

  const LegacyManifestPrefix := "https://damsssl.llgc.org.uk/iiif/2.0/"
  const LegacyManifestSuffix := "/manifest.json"
  const NoPaintingTarget := "No painting annotation target found in canvas"
  const UnmatchedTargetPrefix := "Unable to extract original IDs from target: "

  /** `items.find(item => item.motivation === 'painting')`, as an index. */
  function FirstPainting(annotations: seq<Annotation>): (r: Option<nat>)
    ensures r.Some? ==> r.value < |annotations| && annotations[r.value].motivation == "painting"
    ensures r.Some? ==> forall j :: 0 <= j < r.value ==> annotations[j].motivation != "painting"
    ensures r.None? ==> forall j :: 0 <= j < |annotations| ==> annotations[j].motivation != "painting"
  {
    if annotations == [] then None
    else if annotations[0].motivation == "painting" then Some(0)
    else match FirstPainting(annotations[1..])
      case None => None
      case Some(k) => Some(k + 1)
  }

  /** `canvas.items?.[0]?.items?.find(...)`: only the first annotation page is searched. */
  function PaintingAnnotation(canvas: Canvas): Option<Annotation> {
    if canvas.items.None? || |canvas.items.value| == 0 || canvas.items.value[0].items.None? then None
    else
      var annotations := canvas.items.value[0].items.value;
      match FirstPainting(annotations)
      case None => None
      case Some(k) => Some(annotations[k])
  }

  /** The manifest number captured by `/\/iiif\/2\.0\/(\d+)\/canvas\/\d+\.json$/`. The pattern
      is anchored at the end and every part of it is fixed or a maximal digit run, so it is
      read from the end: `.json`, digits, `/canvas/`, the captured digits, `/iiif/2.0/`. */
  function LegacyManifestNumber(target: string): Option<string> {
    if !EndsWith(target, ".json") then None
    else
      var u := target[..|target| - 5];
      var e := TrailingDigits(u);
      if e == 0 then None
      else
        var v := u[..|u| - e];
        if !EndsWith(v, "/canvas/") then None
        else
          var w := v[..|v| - 8];
          var d := TrailingDigits(w);
          if d == 0 then None
          else if !EndsWith(w[..|w| - d], "/iiif/2.0/") then None
          else Some(w[|w| - d..])
  }

  /** The shape the pattern accepts: anything, `/iiif/2.0/`, digits, `/canvas/`, digits, `.json`. */
  predicate IsLegacyTarget(target: string, prefix: string, number: string, canvasNumber: string) {
    && IsDigits(number)
    && IsDigits(canvasNumber)
    && target == prefix + "/iiif/2.0/" + number + "/canvas/" + canvasNumber + ".json"
  }

  /** Whatever the pattern captures comes from a target of the accepted shape. */
  lemma LegacyManifestNumberSound(target: string)
    requires LegacyManifestNumber(target).Some?
    ensures exists prefix, canvasNumber :: IsLegacyTarget(target, prefix, LegacyManifestNumber(target).value, canvasNumber)
  {
    var prefix, number, canvasNumber := LegacyParts(target);
    assert IsLegacyTarget(target, prefix, LegacyManifestNumber(target).value, canvasNumber);
  }

  /** The parts of a matched target, read off as the pattern reads them. */
  lemma LegacyParts(target: string) returns (prefix: string, number: string, canvasNumber: string)
    requires LegacyManifestNumber(target).Some?
    ensures LegacyManifestNumber(target) == Some(number)
    ensures IsLegacyTarget(target, prefix, number, canvasNumber)
  {
    var u := target[..|target| - 5];
    var e := TrailingDigits(u);
    var v := u[..|u| - e];
    var w := v[..|v| - 8];
    var d := TrailingDigits(w);
    var x := w[..|w| - d];
    prefix := x[..|x| - 10];
    number := w[|w| - d..];
    canvasNumber := u[|u| - e..];
    assert target == u + ".json" by { SplitEnd(target, ".json"); }
    assert u == v + canvasNumber;
    assert v == w + "/canvas/" by { SplitEnd(v, "/canvas/"); }
    assert w == x + number;
    assert x == prefix + "/iiif/2.0/" by { SplitEnd(x, "/iiif/2.0/"); }
    Reassemble(target, u, v, w, x, prefix, number, canvasNumber);
  }

  lemma SplitEnd(s: string, suffix: string)
    requires EndsWith(s, suffix)
    ensures s == s[..|s| - |suffix|] + suffix
  {
  }

  lemma Reassemble(target: string, u: string, v: string, w: string, x: string, prefix: string, number: string, canvasNumber: string)
    requires target == u + ".json" && u == v + canvasNumber && v == w + "/canvas/"
    requires w == x + number && x == prefix + "/iiif/2.0/"
    ensures target == prefix + "/iiif/2.0/" + number + "/canvas/" + canvasNumber + ".json"
  {
  }

  /** Every target of the accepted shape is matched, and the capture is its manifest number. */
  lemma LegacyManifestNumberComplete(prefix: string, number: string, canvasNumber: string)
    requires IsDigits(number) && IsDigits(canvasNumber)
    ensures LegacyManifestNumber(prefix + "/iiif/2.0/" + number + "/canvas/" + canvasNumber + ".json") == Some(number)
  {
    var x := prefix + "/iiif/2.0/";
    var w := x + number;
    var v := w + "/canvas/";
    var u := v + canvasNumber;
    var target := u + ".json";
    assert target == prefix + "/iiif/2.0/" + number + "/canvas/" + canvasNumber + ".json";
    assert target[|target| - 5..] == ".json";
    assert target[..|target| - 5] == u;
    TrailingDigitsOf(v, canvasNumber);
    assert u[..|u| - |canvasNumber|] == v;
    assert v[|v| - 8..] == "/canvas/";
    assert v[..|v| - 8] == w;
    TrailingDigitsOf(x, number);
    assert w[..|w| - |number|] == x;
    assert x[|x| - 10..] == "/iiif/2.0/";
    assert w[|w| - |number|..] == number;
  }

  /** `extractOriginalIds`. */
  function ExtractOriginalIds(canvas: Canvas): Result<OriginalIds> {
    var annotation := PaintingAnnotation(canvas);
    if annotation.None? || annotation.value.target.None? || annotation.value.target.value == "" then
      Failure(NoPaintingTarget)
    else
      var target := annotation.value.target.value;
      match LegacyManifestNumber(target)
      case None => Failure(UnmatchedTargetPrefix + target)
      case Some(number) => Success(OriginalIds(target, LegacyManifestPrefix + number + LegacyManifestSuffix))
  }

  /** `extractOriginalIds` fails with 'No painting annotation' exactly when the first
      annotation page has no painting annotation with a non-empty target; when it succeeds the
      target has the legacy shape, the canvas id is that target unchanged and the manifest id is
      built from the captured manifest number. */
  lemma ExtractOriginalIdsSpec(canvas: Canvas)
    ensures var r := ExtractOriginalIds(canvas);
      var annotation := PaintingAnnotation(canvas);
      && (annotation.None? || annotation.value.target.None? || annotation.value.target.value == "" <==>
            r == Failure(NoPaintingTarget))
      && (r.Success? ==>
            && annotation.Some? && annotation.value.target == Some(r.value.originalCanvasId)
            && exists prefix, number, canvasNumber ::
                 && IsLegacyTarget(r.value.originalCanvasId, prefix, number, canvasNumber)
                 && r.value.originalManifestId == LegacyManifestPrefix + number + LegacyManifestSuffix)
  {
    var r := ExtractOriginalIds(canvas);
    var annotation := PaintingAnnotation(canvas);
    if r.Success? {
      var target := annotation.value.target.value;
      LegacyManifestNumberSound(target);
    } else if annotation.Some? && annotation.value.target.Some? && annotation.value.target.value != "" {
      var target := annotation.value.target.value;
      assert r.error == UnmatchedTargetPrefix + target;
      assert UnmatchedTargetPrefix == ['U'] + UnmatchedTargetPrefix[1..];
      assert NoPaintingTarget == ['N'] + NoPaintingTarget[1..];
      assert r.error[0] == 'U';
    }
  }

  /** Conversely, a painting target of the legacy shape always gives that target and the
      legacy manifest URL of its manifest number. */
  lemma ExtractOriginalIdsComplete(canvas: Canvas, prefix: string, number: string, canvasNumber: string)
    requires PaintingAnnotation(canvas).Some? && PaintingAnnotation(canvas).value.target.Some?
    requires IsLegacyTarget(PaintingAnnotation(canvas).value.target.value, prefix, number, canvasNumber)
    ensures ExtractOriginalIds(canvas) == Success(OriginalIds(PaintingAnnotation(canvas).value.target.value,
                                                              LegacyManifestPrefix + number + LegacyManifestSuffix))
  {
    LegacyManifestNumberComplete(prefix, number, canvasNumber);
  }
}
