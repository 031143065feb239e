/** Quality variants and their selection (pkg/types/encoding.go,
    internal/infrastructure/ffmpeg/encoder.go, internal/application/usecases/separate_av_encoder.go). */
module Ladders {

  datatype Variant = Variant(name: string, width: nat, height: nat, bitrate: string, maxRate: string, bufSize: string)

  const LADDER: seq<Variant> := [
    Variant("240p", 426, 240, "400k", "428k", "600k"),
    Variant("360p", 640, 360, "800k", "856k", "1200k"),
    Variant("480p", 854, 480, "1200k", "1284k", "1800k"),
    Variant("720p", 1280, 720, "2500k", "2675k", "3750k"),
    Variant("1080p", 1920, 1080, "5000k", "5350k", "7500k"),
    Variant("1440p", 2560, 1440, "8000k", "8560k", "12000k"),
    Variant("4K", 3840, 2160, "15000k", "16050k", "22500k")]

  /** The variants of a list that are no taller than the input. */
  function Fitting(vs: seq<Variant>, height: int): seq<Variant>
  {
    if vs == [] then []
    else if vs[|vs| - 1].height <= height then Fitting(vs[..|vs| - 1], height) + [vs[|vs| - 1]]
    else Fitting(vs[..|vs| - 1], height)
  }

  function Selected(height: int): seq<Variant>
  {
    if Fitting(LADDER, height) == [] then [LADDER[0]] else Fitting(LADDER, height)
  }

  method SelectVariants(inputWidth: int, inputHeight: int) returns (variants: seq<Variant>)
    ensures variants == Selected(inputHeight)
  {
    variants := [];
    for i := 0 to |LADDER|
      invariant variants == Fitting(LADDER[..i], inputHeight)
    {
      assert LADDER[..i + 1][..i] == LADDER[..i];
      if LADDER[i].height <= inputHeight {
        variants := variants + [LADDER[i]];
      }
    }
    assert LADDER[..|LADDER|] == LADDER;
    if |variants| == 0 && |LADDER| > 0 {
      variants := variants + [LADDER[0]];
    }
  }

  ghost predicate Climbing(vs: seq<Variant>)
  {
    forall i, j :: 0 <= i < j < |vs| ==> vs[i].height < vs[j].height
  }

  predicate DistinctNames(vs: seq<Variant>)
  {
    forall i, j :: 0 <= i < j < |vs| ==> vs[i].name != vs[j].name
  }

  /** From a list of growing height the fitting variants are a prefix. */
  lemma {:induction false} FittingIsPrefix(vs: seq<Variant>, height: int)
    requires Climbing(vs)
    ensures Fitting(vs, height) <= vs
    ensures forall i :: 0 <= i < |vs| ==> (vs[i].height <= height <==> i < |Fitting(vs, height)|)
  {
    if vs != [] {
      FittingIsPrefix(vs[..|vs| - 1], height);
    }
  }

  lemma LadderNamesDistinct()
    ensures DistinctNames(LADDER)
  {
    var names := ["240p", "360p", "480p", "720p", "1080p", "1440p", "4K"];
    assert |LADDER| == |names| && forall i :: 0 <= i < |names| ==> LADDER[i].name == names[i];
    assert names[0][0] == '2' && names[1][0] == '3' && names[2][0] == '4' && names[3][0] == '7';
    assert |names[4]| == 5 && |names[5]| == 5 && names[4][1] == '0' && names[5][1] == '4' && |names[6]| == 2;
  }

  /** The selection is never empty, runs up the ladder from its lowest rung, and holds
      exactly the rungs no taller than the input (or just the lowest). */
  lemma SelectedIsPrefix(height: int)
    ensures var s := Selected(height);
            && s != [] && s <= LADDER && DistinctNames(s)
            && forall i :: 0 <= i < |LADDER| ==> (i < |s| <==> i == 0 || LADDER[i].height <= height)
  {
    LadderNamesDistinct();
    FittingIsPrefix(LADDER, height);
  }

  // ------------------------------------------- the table of the separate A/V encoder

  datatype QualitySpec = QualitySpec(name: string, width: nat, height: nat, bitrate: string, kbps: nat)

  const AV_TABLE: seq<QualitySpec> := [
    QualitySpec("240p", 426, 240, "400k", 400),
    QualitySpec("360p", 640, 360, "800k", 800),
    QualitySpec("480p", 854, 480, "1200k", 1200),
    QualitySpec("720p", 1280, 720, "2500k", 2500),
    QualitySpec("1080p", 1920, 1080, "5000k", 5000),
    QualitySpec("1440p", 2560, 1440, "8000k", 8000),
    QualitySpec("4k", 3840, 2160, "12000k", 12000)]

  predicate Fits(q: QualitySpec, width: int, height: int) { q.width <= width && q.height <= height }

  function FittingBoth(qs: seq<QualitySpec>, width: int, height: int): seq<QualitySpec>
  {
    if qs == [] then []
    else if Fits(qs[|qs| - 1], width, height) then FittingBoth(qs[..|qs| - 1], width, height) + [qs[|qs| - 1]]
    else FittingBoth(qs[..|qs| - 1], width, height)
  }

  method SelectQualities(width: int, height: int) returns (selected: seq<QualitySpec>)
    ensures selected == FittingBoth(AV_TABLE, width, height)
  {
    selected := [];
    for i := 0 to |AV_TABLE|
      invariant selected == FittingBoth(AV_TABLE[..i], width, height)
    {
      assert AV_TABLE[..i + 1][..i] == AV_TABLE[..i];
      if AV_TABLE[i].width <= width && AV_TABLE[i].height <= height {
        selected := selected + [AV_TABLE[i]];
      }
    }
    assert AV_TABLE[..|AV_TABLE|] == AV_TABLE;
  }

  lemma {:induction false} FittingBothIsPrefix(qs: seq<QualitySpec>, width: int, height: int)
    requires forall i, j :: 0 <= i < j < |qs| ==> qs[i].width < qs[j].width && qs[i].height < qs[j].height
    ensures FittingBoth(qs, width, height) <= qs
    ensures forall i :: 0 <= i < |qs| ==> (Fits(qs[i], width, height) <==> i < |FittingBoth(qs, width, height)|)
  {
    if qs != [] {
      FittingBothIsPrefix(qs[..|qs| - 1], width, height);
    }
  }

  /** Unlike SelectVariants it may select nothing, it never climbs higher than
      SelectVariants does, and rung for rung it has the same frame size. */
  lemma SeparateSelectionIsLower(width: int, height: int)
    ensures var q := FittingBoth(AV_TABLE, width, height);
            && |q| <= |Selected(height)|
            && q <= AV_TABLE
            && (forall i :: 0 <= i < |AV_TABLE| ==>
                  (i < |q| <==> AV_TABLE[i].width <= width && AV_TABLE[i].height <= height))
            && forall i :: 0 <= i < |q| ==>
                 q[i].width == Selected(height)[i].width && q[i].height == Selected(height)[i].height
  {
    SelectedIsPrefix(height);
    FittingBothIsPrefix(AV_TABLE, width, height);
    var q, s := FittingBoth(AV_TABLE, width, height), Selected(height);
    assert forall i :: 0 <= i < |AV_TABLE| ==>
      AV_TABLE[i].width == LADDER[i].width && AV_TABLE[i].height == LADDER[i].height;
    if q != [] {
      assert Fits(AV_TABLE[|q| - 1], width, height);
    }
  }
}
